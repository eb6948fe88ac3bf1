/** The operations of a worker that needs to hold nothing, run to completion without faults or
    interference: an enqueue stores exactly the job asked for, and a floor is the store time of the
    worker's own beacon, raised to the watermark. */
module ProtocolEntry {
  import opened Wrappers
  import opened Protocol
  import opened JobObjects

  // ---------- Enqueue ----------

  /** Where an enqueue running alone can stand: before its write, comparing the record that is there,
      or done. */
  ghost predicate Enqueuing(s0: State, s: State, p: Pid, job: Record, t: nat) {
    && p in s0.workers && p in s.workers && s0.clock < t && job.Job?
    && s.workers[p] == s0.workers[p].(pc := s.workers[p].pc)
    && var k := JobKey(job.job);
    match s.workers[p].pc
    case Put(key, r, purpose, _, stage) =>
      key == k && r == job && purpose == ForEnqueue && stage == Putting && s.store == s0.store
    case EnqueueCompare(key, r) => key == k && r == job && k in s0.store && s.store == s0.store
    case Idle => s.store == if k in s0.store then s0.store else s0.store[k := Object(job, t)]
    case _ => false
  }

  lemma EnqueueAdvances(cfg: Config, s0: State, s: State, p: Pid, job: Record, t: nat, s': State) returns (t': nat)
    requires Enqueuing(s0, s, p, job, t) && Solo(cfg, s, p, s') && s.clock >= s0.clock
    ensures Enqueuing(s0, s', p, job, t')
    ensures s'.workers[p].pc.Idle? ==>
              var free := JobKey(job.job) !in s0.store;
              Reported(cfg, s, p, s', free || s0.store[JobKey(job.job)].record == job)
  {
    var a: Action :| a.Serve? && a.pid == p && a.fault == Pass && Serves(cfg, s, a, s');
    t' := if s.workers[p].pc.Put? && JobKey(job.job) !in s.store then a.time else t;
  }

  lemma {:induction false} EnqueuesAdvance(cfg: Config, states: seq<State>, p: Pid, job: Record, t0: nat, i: nat)
    returns (t: nat)
    requires SoloRun(cfg, states, p) && Enqueuing(states[0], states[0], p, job, t0) && i < |states|
    ensures Enqueuing(states[0], states[i], p, job, t) && states[i].clock >= states[0].clock
  {
    hide Solo, Enqueuing;
    t := t0;
    if i > 0 {
      t := EnqueuesAdvance(cfg, states, p, job, t0, i - 1);
      assert Solo(cfg, states[i - 1], p, states[i - 1 + 1]);
      SoloClock(cfg, states[i - 1], p, states[i]);
      t := EnqueueAdvances(cfg, states[0], states[i - 1], p, job, t, states[i]);
    }
  }

  /** An enqueue stores exactly the job record asked for if its key was free, and nothing otherwise; it
      succeeds when the record stored is the one asked for, so repeating it is harmless. */
  lemma EnqueueIsExact(cfg: Config, states: seq<State>, p: Pid, j: JobId, max: nat, nb: Option<nat>, payload: Digest)
    returns (t: nat)
    requires SoloRun(cfg, states, p) && p in states[0].workers
    requires states[0].workers[p].pc == Started(cfg, Enqueue(j, max, nb, payload))
    requires var last := states[|states| - 1]; p in last.workers && last.workers[p].pc == Idle
    ensures var before, last, job := states[0], states[|states| - 1], Job(j, max, nb, payload);
            && last.workers[p] == before.workers[p].(pc := Idle) && before.clock < t
            && last.store == (if JobKey(j) in before.store then before.store
                              else before.store[JobKey(j) := Object(job, t)])
            && |states| > 1
            && Reported(cfg, states[|states| - 2], p, last, last.store[JobKey(j)].record == job)
  {
    hide Solo, Reported;
    var n, job := |states| - 1, Job(j, max, nb, payload);
    var t1 := EnqueuesAdvance(cfg, states, p, job, states[0].clock + 1, n - 1);
    assert Solo(cfg, states[n - 1], p, states[n - 1 + 1]);
    t := EnqueueAdvances(cfg, states[0], states[n - 1], p, job, t1, states[n]);
  }

  // ---------- Floors ----------

  /** The floor that a beacon's time and a watermark reading give. */
  ghost predicate FloorIs(cfg: Config, t: nat, bucket: Option<nat>, floors: set<nat>, floors': set<nat>) {
    match bucket
    case None => floors' == floors + {t}
    case Some(b) =>
      if cfg.width > 0 && b * cfg.width <= t + cfg.skew && b * cfg.width <= U64_MAX
      then exists f :: f >= t && f >= b * cfg.width && (f == t || f == b * cfg.width) && floors' == floors + {f}
      else floors' == floors
  }

  ghost predicate BeaconOf(s0: State, s: State, nonce: nat, t: nat) {
    && BeaconKey(nonce) !in s0.store && s0.clock < t <= U64_MAX
    && s.store == s0.store[BeaconKey(nonce) := Object(Beacon, t)]
  }

  ghost predicate Measuring(cfg: Config, s0: State, s: State, p: Pid) {
    && p in s0.workers && p in s.workers && s.clock >= s0.clock
    && var w0, w := s0.workers[p], s.workers[p];
    && w.handles == w0.handles
    && match w.pc
       case FloorPut => s.store == s0.store && w.floors == w0.floors
       case FloorHead(nonce) => w.floors == w0.floors && exists t :: BeaconOf(s0, s, nonce, t)
       case FloorGate(t) => w.floors == w0.floors && exists nonce :: BeaconOf(s0, s, nonce, t)
       case Idle => exists nonce, t, b :: BeaconOf(s0, s, nonce, t) && FloorIs(cfg, t, b, w0.floors, w.floors)
       case _ => false
  }

  lemma RaisedExactly(cfg: Config, t: nat, bucket: Option<nat>, floors: set<nat>)
    requires t <= U64_MAX
    ensures var raised := Raised(cfg, t, bucket);
            FloorIs(cfg, t, bucket, floors, if raised.Some? then floors + {raised.value} else floors)
  {
    if bucket.Some? && Raised(cfg, t, bucket).Some? {
      var f := Raised(cfg, t, bucket).value;
      assert f >= t && f >= bucket.value * cfg.width && (f == t || f == bucket.value * cfg.width);
    }
  }

  lemma FloorMeasures(cfg: Config, s0: State, s: State, p: Pid, s': State)
    requires Measuring(cfg, s0, s, p) && Solo(cfg, s, p, s')
    ensures Measuring(cfg, s0, s', p)
  {
    hide Solo, Raised, FloorIs;
    var call, reply, time, token := SoloStep(cfg, s, p, s');
    SoloClock(cfg, s, p, s');
    match s.workers[p].pc
    case FloorPut =>
      if call.key !in s.store {
        assert BeaconOf(s0, s', call.key.nonce, time);
      }
    case FloorHead(nonce) =>
      var t :| BeaconOf(s0, s, nonce, t);
      assert BeaconOf(s0, s', nonce, t);
    case FloorGate(t) =>
      var nonce :| BeaconOf(s0, s, nonce, t);
      assert BeaconOf(s0, s', nonce, t);
      RaisedExactly(cfg, t, reply.bucket, s.workers[p].floors);
      assert FloorIs(cfg, t, reply.bucket, s0.workers[p].floors, s'.workers[p].floors);
    case _ =>
  }

  lemma SoloClock(cfg: Config, s: State, p: Pid, s': State)
    requires Solo(cfg, s, p, s')
    ensures s'.clock >= s.clock
  {}

  lemma {:induction false} FloorsMeasure(cfg: Config, states: seq<State>, p: Pid, i: nat)
    requires SoloRun(cfg, states, p) && Measuring(cfg, states[0], states[0], p) && i < |states|
    ensures Measuring(cfg, states[0], states[i], p)
  {
    hide Solo, Measuring;
    if i > 0 {
      FloorsMeasure(cfg, states, p, i - 1);
      assert Solo(cfg, states[i - 1], p, states[i - 1 + 1]);
      FloorMeasures(cfg, states[0], states[i - 1], p, states[i]);
    }
  }

  /** The floor established is the store time of the worker's own new beacon or, where the watermark is
      ahead of that by no more than the skew guard, the watermark; past the guard there is none. */
  lemma FloorIsExact(cfg: Config, states: seq<State>, p: Pid) returns (nonce: nat, t: nat, bucket: Option<nat>)
    requires SoloRun(cfg, states, p) && p in states[0].workers
    requires states[0].workers[p].pc == Started(cfg, EstablishFloor)
    requires var last := states[|states| - 1]; p in last.workers && last.workers[p].pc == Idle
    ensures var before, last := states[0], states[|states| - 1];
            && BeaconOf(before, last, nonce, t) && last.workers[p].handles == before.workers[p].handles
            && FloorIs(cfg, t, bucket, before.workers[p].floors, last.workers[p].floors)
  {
    hide FloorIs, BeaconOf, Solo;
    var before, last := states[0], states[|states| - 1];
    FloorsMeasure(cfg, states, p, |states| - 1);
    nonce, t, bucket :| && BeaconOf(before, last, nonce, t)
                        && FloorIs(cfg, t, bucket, before.workers[p].floors, last.workers[p].floors);
  }
}
