/** The core's operations on one job's stored objects, each taken as one atomic step, against the
    oracle. For every operation by the holder of any generation, `Agrees` says exactly when the core
    and the oracle give the same outcome and, through `StateOf`, the same next state; a whole run
    stays in lockstep exactly while it holds. */
module OracleRefinement {
  import opened Wrappers
  import opened Protocol
  import opened Oracle

  datatype StoredClaim = StoredClaim(time: nat, attempt: nat, lease: nat)

  /** What a receipt and a dead record say of the claim they end. */
  datatype Mark = Mark(generation: nat, attempt: nat, payload: Digest, outputs: seq<Digest>)
  datatype Death = Death(generation: nat, attempt: nat, reason: nat)

  /** A job's objects: its record, its claims by generation, its fail records, its outputs by name
      and its terminals. */
  datatype Objects = Objects(maximumAttempts: nat, notBefore: Option<nat>, claims: seq<StoredClaim>,
                             fails: map<nat, nat>, outputs: map<nat, Digest>, receipt: Option<Mark>,
                             dead: Option<Death>)

  function TailOf(o: Objects): StoredClaim {
    if o.claims == [] then StoredClaim(0, 0, 0) else o.claims[|o.claims| - 1]
  }

  function Expiry(c: StoredClaim): nat {
    Saturate(c.time + c.lease)
  }

  predicate Terminated(o: Objects) {
    o.receipt.Some? || o.dead.Some?
  }

  // ---------- The core's operations ----------

  /** The claim scan's decision on one candidate, at a floor, a skew guard and the store time its
      write would get. */
  function TryClaim(o: Objects, floor: nat, skew: nat, lease: nat, time: nat): (Objects, Option<(nat, nat)>) {
    var n, tail := |o.claims|, TailOf(o);
    var expired := n == 0 || floor >= Saturate(Expiry(tail) + skew);
    if Terminated(o) then (o, None)
    else if n > 0 && n in o.fails && floor < o.fails[n] then (o, None)
    else if !expired then (o, None)
    else if o.notBefore.Some? && floor < o.notBefore.value then (o, None)
    else if tail.attempt + 1 > o.maximumAttempts then
      (o.(dead := Some(Death(n, tail.attempt, ATTEMPTS_EXHAUSTED))), None)
    else if n >= U32_MAX then (o, None)
    else (o.(claims := o.claims + [StoredClaim(time, tail.attempt + 1, lease)]), Some((n + 1, tail.attempt + 1)))
  }

  predicate Issued(o: Objects, g: nat) {
    1 <= g <= |o.claims|
  }

  /** The holder of generation `g` extends its custody. */
  function Renewing(o: Objects, g: nat, time: nat): (Objects, bool)
    requires Issued(o, g)
  {
    var h := o.claims[g - 1];
    if Terminated(o) || g < |o.claims| then (o, false)
    else (o.(claims := o.claims + [StoredClaim(time, h.attempt, h.lease)]), true)
  }

  /** An output committed under a name: the first bytes win, and only the same bytes converge. */
  function Committing(o: Objects, name: nat, digest: Digest): (Objects, bool) {
    if name in o.outputs then (o, o.outputs[name] == digest)
    else (o.(outputs := o.outputs[name := digest]), true)
  }

  /** Every output presented is this job's and stored with that digest. */
  predicate Backed(o: Objects, job: JobId, outputs: seq<CommittedOutput>) {
    forall i :: 0 <= i < |outputs| ==>
      outputs[i].job == job && outputs[i].name in o.outputs && o.outputs[outputs[i].name] == outputs[i].digest
  }

  function MarkOf(o: Objects, g: nat, payload: Digest, outputs: seq<CommittedOutput>): Mark
    requires Issued(o, g)
  {
    Mark(g, o.claims[g - 1].attempt, payload, Digests(outputs))
  }

  /** Whether the acknowledgment wrote the receipt or found its own evidence in it. */
  function Acking(o: Objects, job: JobId, g: nat, payload: Digest, outputs: seq<CommittedOutput>): (Objects, bool)
    requires Issued(o, g)
  {
    var mark := MarkOf(o, g, payload, outputs);
    if o.dead.Some? || !Backed(o, job, outputs) then (o, false)
    else if o.receipt.Some? then (o, o.receipt.value == mark)
    else (o.(receipt := Some(mark)), true)
  }

  /** The first fail record of a generation wins; the call reports success either way. */
  function Nacking(o: Objects, g: nat, until: nat): (Objects, bool) {
    (if g in o.fails then o else o.(fails := o.fails[g := until]), true)
  }

  /** A dead record already there is success only with this claim's evidence. */
  function Burying(o: Objects, g: nat, reason: nat): (Objects, bool)
    requires Issued(o, g)
  {
    var a := o.claims[g - 1].attempt;
    if o.receipt.Some? then (o, false)
    else if o.dead.Some? then (o, o.dead.value.generation == g && o.dead.value.attempt == a)
    else (o.(dead := Some(Death(g, a, reason))), true)
  }

  // ---------- The abstraction ----------

  function PhaseOf(o: Objects): Phase {
    var n, tail := |o.claims|, TailOf(o);
    if o.receipt.Some? then Finished(Receipted)
    else if o.dead.Some? then Finished(Died(o.dead.value.reason))
    else if n == 0 then Ready(if o.notBefore.Some? then o.notBefore.value else 0)
    else if n in o.fails then Backoff(n, tail.attempt, o.fails[n])
    else Claimed(n, tail.attempt, Expiry(tail))
  }

  /** The one output name the oracle keeps. */
  const RESULT: nat := 0

  function StateOf(o: Objects): JobState {
    JobState(o.maximumAttempts, PhaseOf(o), if RESULT in o.outputs then Some(o.outputs[RESULT]) else None)
  }

  /** What every operation keeps: positive attempts, fail records only of claimed generations, and
      a job-level delay that was over when the first claim was made. */
  predicate Good(o: Objects, clock: nat) {
    && o.maximumAttempts > 0
    && |o.claims| < U32_MAX
    && (o.claims != [] ==> 1 <= TailOf(o).attempt)
    && (forall g :: g in o.fails ==> Issued(o, g))
    && (o.claims != [] && o.notBefore.Some? ==> o.notBefore.value <= clock)
  }

  /** The tail is claimed: nothing terminal, not given back. */
  predicate Active(o: Objects) {
    o.claims != [] && |o.claims| !in o.fails && !Terminated(o)
  }

  // ---------- Operation by operation ----------

  /** The core looks at the deadline and at the lease, the oracle in a backoff only at the deadline:
      the floor is between the two. */
  predicate BackoffWindow(o: Objects, floor: nat) {
    && !Terminated(o) && o.claims != [] && |o.claims| in o.fails
    && o.fails[|o.claims|] <= floor < Expiry(TailOf(o))
  }

  /** A claim: same refusal, same generation and attempt, same exhaustion, exactly outside that
      window. */
  lemma ClaimRefinesExactly(o: Objects, clock: nat, lease: nat, time: nat)
    requires Good(o, clock)
    ensures var (o', r) := TryClaim(o, clock, 0, lease, time);
            var (s', r') := Claiming(StateOf(o), clock, lease, time);
            r == r' && StateOf(o') == s' <==> !BackoffWindow(o, clock)
  {
    if BackoffWindow(o, clock) {
      assert PhaseOf(o).Backoff?;
      assert Claiming(StateOf(o), clock, lease, time).0.phase != PhaseOf(o);
    }
  }

  predicate RenewAgrees(o: Objects, g: nat) {
    Terminated(o) || (g == |o.claims| <==> |o.claims| !in o.fails)
  }

  lemma RenewRefinesExactly(o: Objects, g: nat, time: nat)
    requires Issued(o, g) && forall x :: x in o.fails ==> Issued(o, x)
    ensures var (o', r) := Renewing(o, g, time);
            var (s', r') := Renewed(StateOf(o), Saturate(time + TailOf(o).lease));
            r == r' && StateOf(o') == s' <==> RenewAgrees(o, g)
  {}

  predicate AckAgrees(o: Objects, job: JobId, g: nat, payload: Digest, outputs: seq<CommittedOutput>)
    requires Issued(o, g)
  {
    || o.dead.Some?
    || (o.receipt.None? && (Backed(o, job, outputs) <==> Active(o)))
    || (o.receipt.Some? && !(Backed(o, job, outputs) && o.receipt.value == MarkOf(o, g, payload, outputs)))
  }

  lemma AckRefinesExactly(o: Objects, job: JobId, g: nat, payload: Digest, outputs: seq<CommittedOutput>)
    requires Issued(o, g)
    ensures var (o', r) := Acking(o, job, g, payload, outputs);
            var (s', r') := Ended(StateOf(o), Receipted);
            r == r' && StateOf(o') == s' <==> AckAgrees(o, job, g, payload, outputs)
  {
    hide Backed, MarkOf;
  }

  predicate NackAgrees(o: Objects, g: nat) {
    g == |o.claims| && Active(o)
  }

  lemma NackRefinesExactly(o: Objects, g: nat, until: nat)
    requires Issued(o, g)
    ensures var (o', r) := Nacking(o, g, until);
            var (s', r') := PutBack(StateOf(o), until);
            r == r' && StateOf(o') == s' <==> NackAgrees(o, g)
  {}

  predicate BuryAgrees(o: Objects, g: nat)
    requires Issued(o, g)
  {
    || Active(o) || o.receipt.Some?
    || (o.dead.Some? && !(o.dead.value.generation == g && o.dead.value.attempt == o.claims[g - 1].attempt))
  }

  lemma BuryRefinesExactly(o: Objects, g: nat, reason: nat)
    requires Issued(o, g)
    ensures var (o', r) := Burying(o, g, reason);
            var (s', r') := Ended(StateOf(o), Died(reason));
            r == r' && StateOf(o') == s' <==> BuryAgrees(o, g)
  {}

  predicate CommitAgrees(o: Objects, digest: Digest) {
    if Active(o) then RESULT in o.outputs ==> o.outputs[RESULT] == digest
    else RESULT in o.outputs && o.outputs[RESULT] != digest
  }

  lemma CommitRefinesExactly(o: Objects, digest: Digest)
    ensures var (o', r) := Committing(o, RESULT, digest);
            var (s', r') := Produced(StateOf(o), digest);
            r == r' && StateOf(o') == s' <==> CommitAgrees(o, digest)
  {}

  // ---------- Whole runs ----------

  datatype Op =
    | Advance(to: nat)
    | Enqueue(job: JobId, maximumAttempts: nat, notBefore: Option<nat>)
    | Claim(job: JobId, lease: nat, time: nat)
    | Renew(job: JobId, generation: nat, time: nat)
    | Commit(job: JobId, generation: nat, digest: Digest)
    | Ack(job: JobId, generation: nat, payload: Digest, outputs: seq<CommittedOutput>)
    | Nack(job: JobId, generation: nat, until: nat)
    | Bury(job: JobId, generation: nat, reason: nat)

  datatype Outcome = Done(ok: bool) | Taken(claim: Option<(nat, nat)>)

  datatype Core = Core(jobs: map<JobId, Objects>, clock: nat)
  datatype Model = Model(jobs: map<JobId, JobState>, clock: nat)

  function Later(clock: nat, to: nat): nat {
    if to > clock then to else clock
  }

  /** What a caller can do: enqueue with positive attempts, act with a handle of an issued
      generation, and stay below the u32 space of generations. */
  predicate Callable(c: Core, op: Op) {
    match op
    case Advance(_) => true
    case Enqueue(_, max, _) => max > 0
    case Claim(j, _, _) => j in c.jobs ==> |c.jobs[j].claims| + 1 < U32_MAX
    case Renew(j, g, _) => j in c.jobs && Issued(c.jobs[j], g) && |c.jobs[j].claims| + 1 < U32_MAX
    case _ => op.job in c.jobs && Issued(c.jobs[op.job], op.generation)
  }

  /** A holder's operation on the job's objects. */
  function Acting(o: Objects, op: Op): (Objects, bool)
    requires !op.Advance? && !op.Enqueue? && !op.Claim? && Issued(o, op.generation)
  {
    match op
    case Renew(_, g, time) => Renewing(o, g, time)
    case Commit(_, _, digest) => Committing(o, RESULT, digest)
    case Ack(j, g, payload, outputs) => Acking(o, j, g, payload, outputs)
    case Nack(_, g, until) => Nacking(o, g, until)
    case Bury(_, g, reason) => Burying(o, g, reason)
  }

  function CoreStep(c: Core, op: Op): (Core, Outcome)
    requires Callable(c, op)
  {
    match op
    case Advance(to) => (c.(clock := Later(c.clock, to)), Done(true))
    case Enqueue(j, max, nb) =>
      if j !in c.jobs then (c.(jobs := c.jobs[j := Objects(max, nb, [], map[], map[], None, None)]), Done(true))
      else (c, Done(c.jobs[j].maximumAttempts == max && c.jobs[j].notBefore == nb))
    case Claim(j, lease, time) =>
      if j !in c.jobs then (c, Taken(None))
      else
        var (o, r) := TryClaim(c.jobs[j], c.clock, 0, lease, time);
        (c.(jobs := c.jobs[j := o]), Taken(r))
    case _ =>
      var (o, r) := Acting(c.jobs[op.job], op);
      (c.(jobs := c.jobs[op.job := o]), Done(r))
  }

  function NotBefore(nb: Option<nat>): nat {
    if nb.Some? then nb.value else 0
  }

  /** The oracle on the same operation; a renewal is given the lease the claim carries. */
  function ModelStep(m: Model, op: Op, lease: nat): (Model, Outcome) {
    match op
    case Advance(to) => (m.(clock := Later(m.clock, to)), Done(true))
    case Enqueue(j, max, nb) =>
      if j !in m.jobs then (m.(jobs := m.jobs[j := JobState(max, Ready(NotBefore(nb)), None)]), Done(true))
      else (m, Done(m.jobs[j].maximumAttempts == max))
    case Claim(j, lease', time) =>
      if j !in m.jobs then (m, Taken(None))
      else
        var (s, r) := Claiming(m.jobs[j], m.clock, lease', time);
        (m.(jobs := m.jobs[j := s]), Taken(r))
    case _ =>
      if op.job !in m.jobs then (m, Done(false))
      else
        var (s, r) := Playing(m.jobs[op.job], op, lease);
        (m.(jobs := m.jobs[op.job := s]), Done(r))
  }

  /** A holder's operation on the oracle's job. */
  function Playing(s: JobState, op: Op, lease: nat): (JobState, bool) {
    match op
    case Renew(_, _, time) => Renewed(s, Saturate(time + lease))
    case Commit(_, _, digest) => Produced(s, digest)
    case Ack(_, _, _, _) => Ended(s, Receipted)
    case Nack(_, _, until) => PutBack(s, until)
    case Bury(_, _, reason) => Ended(s, Died(reason))
    case _ => (s, false)
  }

  /** Exactly when the two agree, read off the job's objects before the call. */
  predicate Agrees(c: Core, op: Op)
    requires Callable(c, op)
  {
    match op
    case Advance(_) => true
    case Enqueue(j, max, nb) => j in c.jobs && c.jobs[j].maximumAttempts == max ==> c.jobs[j].notBefore == nb
    case Claim(j, _, _) => j in c.jobs ==> !BackoffWindow(c.jobs[j], c.clock)
    case Renew(j, g, _) => RenewAgrees(c.jobs[j], g)
    case Commit(j, _, digest) => CommitAgrees(c.jobs[j], digest)
    case Ack(j, g, payload, outputs) => AckAgrees(c.jobs[j], j, g, payload, outputs)
    case Nack(j, g, _) => NackAgrees(c.jobs[j], g)
    case Bury(j, g, _) => BuryAgrees(c.jobs[j], g)
  }

  function LeaseIn(c: Core, op: Op): nat {
    if op.Renew? && op.job in c.jobs then TailOf(c.jobs[op.job]).lease else 0
  }

  function ModelOf(c: Core): Model {
    Model(map j | j in c.jobs :: StateOf(c.jobs[j]), c.clock)
  }

  ghost predicate AllGood(c: Core) {
    forall j :: j in c.jobs ==> Good(c.jobs[j], c.clock)
  }

  lemma UpdateCommutes(c: Core, j: JobId, o: Objects)
    ensures ModelOf(c.(jobs := c.jobs[j := o])) == ModelOf(c).(jobs := ModelOf(c).jobs[j := StateOf(o)])
  {
    assert ModelOf(c.(jobs := c.jobs[j := o])).jobs == ModelOf(c).jobs[j := StateOf(o)];
  }

  /** Two updates of one job give the same model exactly when they give it the same state. */
  lemma UpdatesAgree(m: Model, j: JobId, s: JobState, t: JobState)
    ensures m.(jobs := m.jobs[j := s]) == m.(jobs := m.jobs[j := t]) <==> s == t
  {
    assert m.jobs[j := s][j] == s && m.jobs[j := t][j] == t;
  }

  lemma HolderRefinesExactly(o: Objects, op: Op, clock: nat)
    requires Good(o, clock) && !op.Advance? && !op.Enqueue? && !op.Claim? && Issued(o, op.generation)
    requires op.Renew? ==> |o.claims| + 1 < U32_MAX
    ensures var c := Core(map[op.job := o], clock);
            var (o', r) := Acting(o, op);
            var (s', r') := Playing(StateOf(o), op, LeaseIn(c, op));
            && Callable(c, op) && Good(o', clock)
            && (r == r' && StateOf(o') == s' <==> Agrees(c, op))
  {
    hide StateOf, Renewed, Ended, PutBack, Produced, RenewAgrees, AckAgrees, NackAgrees, BuryAgrees, CommitAgrees;
    match op
    case Renew(_, g, time) => RenewRefinesExactly(o, g, time);
    case Commit(_, _, digest) => CommitRefinesExactly(o, digest);
    case Ack(j, g, payload, outputs) => AckRefinesExactly(o, j, g, payload, outputs);
    case Nack(_, g, until) => NackRefinesExactly(o, g, until);
    case Bury(_, g, reason) => BuryRefinesExactly(o, g, reason);
  }

  lemma ClaimKeepsGood(o: Objects, clock: nat, lease: nat, time: nat)
    requires Good(o, clock) && |o.claims| + 1 < U32_MAX
    ensures Good(TryClaim(o, clock, 0, lease, time).0, clock)
  {}

  lemma Delayed(o: Objects, clock: nat, clock': nat)
    requires Good(o, clock) && clock <= clock'
    ensures Good(o, clock')
  {}

  /** Each operation: goodness is kept, and the core's outcome and next state are the oracle's
      exactly when they agree. */
  lemma StepRefinesExactly(c: Core, op: Op)
    requires AllGood(c) && Callable(c, op)
    ensures var (c', r) := CoreStep(c, op);
            var (m', r') := ModelStep(ModelOf(c), op, LeaseIn(c, op));
            AllGood(c') && (r == r' && ModelOf(c') == m' <==> Agrees(c, op))
  {
    hide Good, StateOf, TryClaim, Claiming, Acting, Playing, BackoffWindow, RenewAgrees, AckAgrees, NackAgrees,
         BuryAgrees, CommitAgrees;
    match op
    case Advance(to) =>
      forall j | j in c.jobs ensures Good(c.jobs[j], Later(c.clock, to)) {
        Delayed(c.jobs[j], c.clock, Later(c.clock, to));
      }
    case Enqueue(j, max, nb) =>
      var o := Objects(max, nb, [], map[], map[], None, None);
      NewJob(max, nb, c.clock);
      UpdateCommutes(c, j, o);
      if j in c.jobs {
        StateMaximum(c.jobs[j]);
      }
    case Claim(j, lease, time) =>
      if j in c.jobs {
        var (o', _) := TryClaim(c.jobs[j], c.clock, 0, lease, time);
        ClaimRefinesExactly(c.jobs[j], c.clock, lease, time);
        ClaimKeepsGood(c.jobs[j], c.clock, lease, time);
        UpdateCommutes(c, j, o');
        UpdatesAgree(ModelOf(c), j, StateOf(o'), Claiming(StateOf(c.jobs[j]), c.clock, lease, time).0);
      }
    case _ =>
      var o := c.jobs[op.job];
      var one := Core(map[op.job := o], c.clock);
      HolderRefinesExactly(o, op, c.clock);
      UpdateCommutes(c, op.job, Acting(o, op).0);
      UpdatesAgree(ModelOf(c), op.job, StateOf(Acting(o, op).0), Playing(StateOf(o), op, LeaseIn(c, op)).0);
  }

  lemma NewJob(max: nat, nb: Option<nat>, clock: nat)
    requires max > 0
    ensures var o := Objects(max, nb, [], map[], map[], None, None);
            Good(o, clock) && StateOf(o) == JobState(max, Ready(NotBefore(nb)), None)
  {}

  lemma StateMaximum(o: Objects)
    ensures StateOf(o).maximumAttempts == o.maximumAttempts
  {}

  // A whole sequence of operations.

  predicate CallableRun(c: Core, ops: seq<Op>)
    decreases |ops|
  {
    ops == [] || (Callable(c, ops[0]) && CallableRun(CoreStep(c, ops[0]).0, ops[1..]))
  }

  predicate AgreeingRun(c: Core, ops: seq<Op>)
    requires CallableRun(c, ops)
    decreases |ops|
  {
    ops == [] || (Agrees(c, ops[0]) && AgreeingRun(CoreStep(c, ops[0]).0, ops[1..]))
  }

  /** From matching states, every outcome and every next state match. */
  predicate Lockstep(c: Core, m: Model, ops: seq<Op>)
    requires CallableRun(c, ops)
    decreases |ops|
  {
    ops == []
    || (var (c', r) := CoreStep(c, ops[0]);
        var (m', r') := ModelStep(m, ops[0], LeaseIn(c, ops[0]));
        r == r' && ModelOf(c') == m' && Lockstep(c', m', ops[1..]))
  }

  function CoreRun(c: Core, ops: seq<Op>): (Core, seq<Outcome>)
    requires CallableRun(c, ops)
    decreases |ops|
  {
    if ops == [] then (c, [])
    else
      var (c', r) := CoreStep(c, ops[0]);
      var (last, rs) := CoreRun(c', ops[1..]);
      (last, [r] + rs)
  }

  /** The oracle told, at each renewal, the lease of the claim renewed. */
  function ModelRun(m: Model, ops: seq<Op>, leases: seq<nat>): (Model, seq<Outcome>)
    requires |leases| == |ops|
    decreases |ops|
  {
    if ops == [] then (m, [])
    else
      var (m', r) := ModelStep(m, ops[0], leases[0]);
      var (last, rs) := ModelRun(m', ops[1..], leases[1..]);
      (last, [r] + rs)
  }

  function Leases(c: Core, ops: seq<Op>): (ls: seq<nat>)
    requires CallableRun(c, ops)
    ensures |ls| == |ops|
    decreases |ops|
  {
    if ops == [] then [] else [LeaseIn(c, ops[0])] + Leases(CoreStep(c, ops[0]).0, ops[1..])
  }

  lemma {:induction false} LockstepExactly(c: Core, ops: seq<Op>)
    requires AllGood(c) && CallableRun(c, ops)
    ensures Lockstep(c, ModelOf(c), ops) <==> AgreeingRun(c, ops)
    decreases |ops|
  {
    hide CoreStep, ModelStep, Callable, Agrees;
    if ops != [] {
      StepRefinesExactly(c, ops[0]);
      LockstepExactly(CoreStep(c, ops[0]).0, ops[1..]);
    }
  }

  lemma {:induction false} LockstepRuns(c: Core, m: Model, ops: seq<Op>)
    requires CallableRun(c, ops) && m == ModelOf(c) && Lockstep(c, m, ops)
    ensures CoreRun(c, ops).1 == ModelRun(m, ops, Leases(c, ops)).1
    ensures ModelOf(CoreRun(c, ops).0) == ModelRun(m, ops, Leases(c, ops)).0
    decreases |ops|
  {
    hide CoreStep, ModelStep, Callable;
    if ops != [] {
      var c' := CoreStep(c, ops[0]).0;
      LockstepRuns(c', ModelOf(c'), ops[1..]);
      assert Leases(c, ops)[1..] == Leases(c', ops[1..]);
    }
  }

  /** For every sequence of atomic operations from the empty queue: core and oracle stay in lockstep
      exactly when each operation agrees, and then every outcome is the oracle's and the final
      objects map to the oracle's final states. */
  lemma CoreRefinesOracle(ops: seq<Op>)
    requires CallableRun(Core(map[], 0), ops)
    ensures var c, m := Core(map[], 0), Model(map[], 0);
            && (Lockstep(c, m, ops) <==> AgreeingRun(c, ops))
            && (AgreeingRun(c, ops) ==>
                  && CoreRun(c, ops).1 == ModelRun(m, ops, Leases(c, ops)).1
                  && ModelOf(CoreRun(c, ops).0) == ModelRun(m, ops, Leases(c, ops)).0)
  {
    var c, m := Core(map[], 0), Model(map[], 0);
    assert ModelOf(c).jobs == map[];
    LockstepExactly(c, ops);
    if AgreeingRun(c, ops) {
      LockstepRuns(c, m, ops);
    }
  }

  // ---------- Where they part ----------

  /** Enqueue, claim, nack with a deadline before the lease's end, and a claim between the two. */
  const EARLY_NACK: seq<Op> :=
    [Op.Enqueue(7, 3, None), Op.Claim(7, 1000, 1), Op.Nack(7, 1, 10), Op.Advance(20), Op.Claim(7, 1000, 21)]

  /** There the oracle hands the job out again and the core waits for the lease. */
  lemma BackoffParts()
    ensures var c, m := Core(map[], 0), Model(map[], 0);
            && CallableRun(c, EARLY_NACK) && !AgreeingRun(c, EARLY_NACK)
            && |CoreRun(c, EARLY_NACK).1| == |ModelRun(m, EARLY_NACK, Leases(c, EARLY_NACK)).1| == 5
            && CoreRun(c, EARLY_NACK).1[4] == Taken(None)
            && ModelRun(m, EARLY_NACK, Leases(c, EARLY_NACK)).1[4] == Taken(Some((2, 2)))
  {
    EarlyNackCore();
    EarlyNackModel([0, 0, 0, 0, 0]);
    assert Leases(Core(map[], 0), EARLY_NACK) == [0, 0, 0, 0, 0];
  }

  lemma EarlyNackCore()
    ensures var c := Core(map[], 0);
            && CallableRun(c, EARLY_NACK) && !AgreeingRun(c, EARLY_NACK)
            && |CoreRun(c, EARLY_NACK).1| == 5 && CoreRun(c, EARLY_NACK).1[4] == Taken(None)
  {
    var c1 := CoreStep(Core(map[], 0), EARLY_NACK[0]).0;
    var c2 := CoreStep(c1, EARLY_NACK[1]).0;
    assert c2.jobs[7].claims == [StoredClaim(1, 1, 1000)];
    var c3 := CoreStep(c2, EARLY_NACK[2]).0;
    assert BackoffWindow(c3.jobs[7], 20);
    assert EARLY_NACK[1..][1..][1..][1..] == [EARLY_NACK[4]];
  }

  lemma EarlyNackModel(leases: seq<nat>)
    requires |leases| == 5
    ensures var rs := ModelRun(Model(map[], 0), EARLY_NACK, leases).1; |rs| == 5 && rs[4] == Taken(Some((2, 2)))
  {
    var m1 := ModelStep(Model(map[], 0), EARLY_NACK[0], leases[0]).0;
    var m2 := ModelStep(m1, EARLY_NACK[1], leases[1]).0;
    assert m2.jobs[7].phase == Claimed(1, 1, 1001);
    var m3 := ModelStep(m2, EARLY_NACK[2], leases[2]).0;
    assert m3.jobs[7].phase == Backoff(1, 1, 10);
    assert EARLY_NACK[1..][1..][1..][1..] == [EARLY_NACK[4]];
  }

  /** After its first three operations, with the claim given back, the core still lets its holder
      renew, acknowledge, nack again, commit an output and bury, and the oracle refuses each. */
  lemma GivenBackParts(op: Op)
    requires op in [Op.Renew(7, 1, 5), Op.Ack(7, 1, 0, []), Op.Nack(7, 1, 20), Op.Commit(7, 1, 3), Op.Bury(7, 1, 3)]
    ensures CallableRun(Core(map[], 0), EARLY_NACK[..3])
    ensures var (c, _) := CoreRun(Core(map[], 0), EARLY_NACK[..3]);
            var (m, _) := ModelRun(Model(map[], 0), EARLY_NACK[..3], [0, 0, 0]);
            && m == ModelOf(c) && Callable(c, op) && !Agrees(c, op)
            && CoreStep(c, op).1 == Done(true) && ModelStep(m, op, LeaseIn(c, op)).1 == Done(false)
  {
    var c, m := GivenBackRun();
    assert c.jobs[7].claims == [StoredClaim(1, 1, 1000)];
  }

  lemma GivenBackRun() returns (c: Core, m: Model)
    ensures CallableRun(Core(map[], 0), EARLY_NACK[..3])
    ensures c == CoreRun(Core(map[], 0), EARLY_NACK[..3]).0
    ensures m == ModelRun(Model(map[], 0), EARLY_NACK[..3], [0, 0, 0]).0
    ensures c == Core(map[7 := Objects(3, None, [StoredClaim(1, 1, 1000)], map[1 := 10], map[], None, None)], 0)
    ensures m == ModelOf(c) == Model(map[7 := JobState(3, Backoff(1, 1, 10), None)], 0)
  {
    hide CallableRun, CoreRun, ModelRun;
    assert EARLY_NACK[..3] == [EARLY_NACK[0], EARLY_NACK[1], EARLY_NACK[2]];
    var c1 := CoreStep(Core(map[], 0), EARLY_NACK[0]).0;
    var c2 := CoreStep(c1, EARLY_NACK[1]).0;
    assert c2.jobs[7].claims == [StoredClaim(1, 1, 1000)];
    c := CoreStep(c2, EARLY_NACK[2]).0;
    CoreThree(Core(map[], 0), EARLY_NACK[0], EARLY_NACK[1], EARLY_NACK[2]);
    assert c.jobs == map[7 := Objects(3, None, [StoredClaim(1, 1, 1000)], map[1 := 10], map[], None, None)];
    var m1 := ModelStep(Model(map[], 0), EARLY_NACK[0], 0).0;
    var m2 := ModelStep(m1, EARLY_NACK[1], 0).0;
    assert m2.jobs[7].phase == Claimed(1, 1, 1001);
    m := ModelStep(m2, EARLY_NACK[2], 0).0;
    ModelThree(Model(map[], 0), EARLY_NACK[0], EARLY_NACK[1], EARLY_NACK[2]);
    assert m.jobs == map[7 := JobState(3, Backoff(1, 1, 10), None)];
    assert ModelOf(c).jobs == m.jobs;
  }

  lemma CoreThree(c: Core, op1: Op, op2: Op, op3: Op)
    requires Callable(c, op1) && Callable(CoreStep(c, op1).0, op2)
    requires Callable(CoreStep(CoreStep(c, op1).0, op2).0, op3)
    ensures CallableRun(c, [op1, op2, op3])
    ensures CoreRun(c, [op1, op2, op3]).0 == CoreStep(CoreStep(CoreStep(c, op1).0, op2).0, op3).0
  {
    hide CoreStep, Callable;
    var c1 := CoreStep(c, op1).0;
    var c2 := CoreStep(c1, op2).0;
    assert [op1, op2, op3][1..] == [op2, op3] && [op2, op3][1..] == [op3];
    assert CallableRun(c2, [op3]) && CoreRun(c2, [op3]).0 == CoreStep(c2, op3).0;
    assert CallableRun(c1, [op2, op3]) && CoreRun(c1, [op2, op3]).0 == CoreStep(c2, op3).0;
  }

  lemma ModelThree(m: Model, op1: Op, op2: Op, op3: Op)
    ensures ModelRun(m, [op1, op2, op3], [0, 0, 0]).0
            == ModelStep(ModelStep(ModelStep(m, op1, 0).0, op2, 0).0, op3, 0).0
  {
    hide ModelStep;
    var m1 := ModelStep(m, op1, 0).0;
    var m2 := ModelStep(m1, op2, 0).0;
    assert [op1, op2, op3][1..] == [op2, op3] && [op2, op3][1..] == [op3];
    assert [0, 0, 0][1..] == [0, 0] && [0, 0][1..] == [0];
    assert ModelRun(m2, [op3], [0]).0 == ModelStep(m2, op3, 0).0;
    assert ModelRun(m1, [op2, op3], [0, 0]).0 == ModelStep(m2, op3, 0).0;
  }

  // ---------- The oracle class plays these steps ----------

  /** One operation on the oracle object is one model step. */
  method Play(oracle: Oracle, op: Op, lease: nat) returns (r: Outcome)
    modifies oracle
    ensures Model(oracle.jobs, oracle.clock) == ModelStep(old(Model(oracle.jobs, oracle.clock)), op, lease).0
    ensures r == ModelStep(old(Model(oracle.jobs, oracle.clock)), op, lease).1
  {
    hide Claiming, Renewed, Ended, PutBack, Produced;
    match op {
      case Advance(to) =>
        oracle.AdvanceClockTo(to);
        r := Done(true);
      case Enqueue(j, max, nb) =>
        var ok := oracle.Enqueue(j, max, NotBefore(nb));
        r := Done(ok);
      case Claim(j, lease', time) =>
        var claim := oracle.ScanClaim(j, lease', time);
        r := Taken(claim);
      case Renew(j, _, time) =>
        var ok := oracle.RenewObserved(j, lease, time);
        r := Done(ok);
      case Commit(j, _, digest) =>
        var ok := oracle.CommitOutput(j, digest);
        r := Done(ok);
      case Ack(j, _, _, _) =>
        var ok := oracle.Ack(j);
        r := Done(ok);
      case Nack(j, _, until) =>
        var ok := oracle.Nack(j, until);
        r := Done(ok);
      case Bury(j, _, reason) =>
        var ok := oracle.Bury(j, reason);
        r := Done(ok);
    }
  }

  /** And a run of operations is a run of the model. */
  method PlayAll(oracle: Oracle, ops: seq<Op>, leases: seq<nat>) returns (rs: seq<Outcome>)
    requires |leases| == |ops|
    modifies oracle
    ensures (Model(oracle.jobs, oracle.clock), rs) == ModelRun(old(Model(oracle.jobs, oracle.clock)), ops, leases)
  {
    hide ModelStep;
    rs := [];
    ghost var start := Model(oracle.jobs, oracle.clock);
    assert ops[0..] == ops && leases[0..] == leases;
    assert [] + ModelRun(start, ops, leases).1 == ModelRun(start, ops, leases).1;
    for i := 0 to |ops|
      invariant var rest := ModelRun(Model(oracle.jobs, oracle.clock), ops[i..], leases[i..]);
                ModelRun(start, ops, leases) == (rest.0, rs + rest.1)
    {
      ghost var m := Model(oracle.jobs, oracle.clock);
      assert ops[i..][1..] == ops[i + 1..] && leases[i..][1..] == leases[i + 1..];
      var r := Play(oracle, ops[i], leases[i]);
      ghost var rest := ModelRun(Model(oracle.jobs, oracle.clock), ops[i + 1..], leases[i + 1..]);
      assert ModelRun(m, ops[i..], leases[i..]) == (rest.0, [r] + rest.1);
      assert rs + ([r] + rest.1) == rs + [r] + rest.1;
      rs := rs + [r];
    }
    assert ModelRun(Model(oracle.jobs, oracle.clock), ops[|ops|..], leases[|ops|..]).1 == [];
    assert rs + [] == rs;
  }
}
