/** A run of the protocol in which a receipt and a dead record end up side by side: the guards of
    both writers run before either write. */
module ProtocolOverlap {
  import opened Wrappers
  import opened Protocol

  const JOB: JobId := 7

  /** The state after one fault-free call of a worker, with the step number as the fresh token. */
  function Answered(cfg: Config, s: State, pid: Pid, call: Call, reply: Reply): State
    requires pid in s.workers && Pending(s.workers[pid].pc, call)
  {
    var w := s.workers[pid];
    var wrote := call.PutIfAbsent? && call.key !in s.store;
    s.(store := Applied(s.store, call, s.clock + 1),
       clock := if wrote then s.clock + 1 else s.clock,
       owner := s.owner[s.now := pid],
       workers := s.workers[pid := Resume(cfg, w, call, reply, s.now, s.clock, s.now)],
       now := s.now + 1,
       stamps := if wrote && w.pc.Put? then s.stamps[call.key := Stamp(w.pc.guard, s.now, SeenBy(w.pc))] else s.stamps,
       delivered := match Completes(w.pc, reply) case Some(d) => s.delivered + {d} case None => s.delivered)
  }

  /** The state is the last of some run, and step numbers are unused as tokens. */
  ghost predicate Reached(cfg: Config, s: State) {
    && (forall t :: t in s.owner ==> t < s.now)
    && s.clock < 1000
    && exists states :: Run(cfg, states) && states[|states| - 1] == s
  }

  lemma Extend(cfg: Config, s: State, a: Action, s': State)
    requires Reached(cfg, s) && Step(cfg, s, a, s') && (forall t :: t in s'.owner ==> t < s'.now) && s'.clock < 1000
    ensures Reached(cfg, s')
  {
    var states :| Run(cfg, states) && states[|states| - 1] == s;
    var more := states + [s'];
    forall i | 0 <= i < |more| - 1 ensures Next(cfg, more[i], more[i + 1]) {
      if i < |states| - 1 {
        assert Next(cfg, states[i], states[i + 1]);
      } else {
        assert Step(cfg, more[i], a, more[i + 1]);
      }
    }
    assert Run(cfg, more) && more[|more| - 1] == s';
  }

  lemma Serve1(cfg: Config, s: State, pid: Pid, call: Call, reply: Reply)
    requires Reached(cfg, s) && s.clock < 999
    requires pid in s.workers && Pending(s.workers[pid].pc, call) && Answers(s.store, call, reply)
    ensures Reached(cfg, Answered(cfg, s, pid, call, reply))
  {
    hide Reached, Resume, Pending, Completes;
    OwnersAreOld(cfg, s);
    var a := Serve(pid, call, Pass, reply, s.clock + 1, s.now);
    Extend(cfg, s, a, Answered(cfg, s, pid, call, reply));
  }

  lemma OwnersAreOld(cfg: Config, s: State)
    requires Reached(cfg, s)
    ensures forall t :: t in s.owner ==> t < s.now
  {}

  lemma Start1(cfg: Config, s: State, pid: Pid, op: Operation)
    requires Reached(cfg, s) && pid in s.workers && Startable(s.workers[pid], op)
    ensures Reached(cfg, Begun(cfg, s, pid, op))
  {
    Extend(cfg, s, Start(pid, op), Begun(cfg, s, pid, op));
  }

  function Begun(cfg: Config, s: State, pid: Pid, op: Operation): State
    requires pid in s.workers
  {
    s.(workers := s.workers[pid := s.workers[pid].(pc := Started(cfg, op))])
  }

  // ---------- Establishing a floor ----------

  lemma EstablishFloor1(cfg: Config, s: State, pid: Pid) returns (s': State)
    requires Reached(cfg, s) && s.clock < 900 && pid in s.workers && s.workers[pid].pc == Idle
             && BeaconKey(pid) !in s.store
    ensures Reached(cfg, s') && s'.clock == s.clock + 1
            && s'.store == s.store[BeaconKey(pid) := Object(Beacon, s.clock + 1)]
    ensures s'.workers == s.workers[pid := s.workers[pid].(floors := s.workers[pid].floors + {s.clock + 1})]
  {
    hide Reached;
    var s1 := Begun(cfg, s, pid, EstablishFloor);
    Start1(cfg, s, pid, EstablishFloor);
    Serve1(cfg, s1, pid, PutIfAbsent(BeaconKey(pid), Beacon), Committed);
    var s2 := Answered(cfg, s1, pid, PutIfAbsent(BeaconKey(pid), Beacon), Committed);
    Serve1(cfg, s2, pid, Head(BeaconKey(pid)), Meta(s.clock + 1));
    var s3 := Answered(cfg, s2, pid, Head(BeaconKey(pid)), Meta(s.clock + 1));
    Serve1(cfg, s3, pid, ReadWatermark, Watermark(None));
    s' := Answered(cfg, s3, pid, ReadWatermark, Watermark(None));
    assert s'.workers == s.workers[pid := s.workers[pid].(floors := s.workers[pid].floors + {s.clock + 1})];
  }

  // ---------- Claims ----------

  function Probed(floor: nat, guard: nat): Pc {
    Gather(Scan(JOB, floor, 0, guard), Some(Absent), Some(Absent), FROM_START)
  }

  /** A claim begun over a job without a tail hint. */
  lemma GatherStarted(cfg: Config, s: State, pid: Pid, floor: nat) returns (s': State)
    requires Reached(cfg, s) && TailKey(JOB) !in s.store && s.clock < 900
    requires pid in s.workers && s.workers[pid].pc == Idle
    requires floor in s.workers[pid].floors
    ensures Reached(cfg, s') && s'.clock == s.clock && s'.store == s.store
    ensures s'.workers == s.workers[pid := s.workers[pid].(pc :=
              Gather(Scan(JOB, floor, 0, 0), None, None, FROM_START))]
  {
    hide Reached;
    var op := TryClaim(JOB, floor, 0);
    s' := Begun(cfg, s, pid, op);
    Start1(cfg, s, pid, op);
    if cfg.hints {
      var s1 := s';
      Serve1(cfg, s1, pid, Get(TailKey(JOB)), NotFound);
      s' := Answered(cfg, s1, pid, Get(TailKey(JOB)), NotFound);
      assert s'.workers == s.workers[pid := s'.workers[pid]];
    }
  }

  /** From an idle worker through both guards of a claim, over a job with neither terminal record. */
  lemma GatherProbed(cfg: Config, s: State, pid: Pid, floor: nat) returns (s': State, guard: nat)
    requires Reached(cfg, s) && TailKey(JOB) !in s.store && s.clock < 900
    requires pid in s.workers && s.workers[pid].pc == Idle
    requires floor in s.workers[pid].floors && ReceiptKey(JOB) !in s.store && DeadKey(JOB) !in s.store
    ensures Reached(cfg, s') && s'.clock == s.clock && s'.store == s.store
    ensures s'.workers == s.workers[pid := s.workers[pid].(pc := Probed(floor, guard))]
  {
    hide Reached;
    var s1 := GatherStarted(cfg, s, pid, floor);
    Serve1(cfg, s1, pid, Head(ReceiptKey(JOB)), NotFound);
    guard := s1.now;
    var s2 := Answered(cfg, s1, pid, Head(ReceiptKey(JOB)), NotFound);
    assert s2.workers[pid].pc == Gather(Scan(JOB, floor, 0, guard), Some(Absent), None, FROM_START);
    Serve1(cfg, s2, pid, Head(DeadKey(JOB)), NotFound);
    s' := Answered(cfg, s2, pid, Head(DeadKey(JOB)), NotFound);
    assert s'.workers == s.workers[pid := s.workers[pid].(pc := Probed(floor, guard))];
  }

  /** And on to the end of the gather. */
  lemma GatherListed(cfg: Config, s: State, pid: Pid, floor: nat, page: Reply) returns (s': State, guard: nat)
    requires Reached(cfg, s) && TailKey(JOB) !in s.store && s.clock < 900
    requires pid in s.workers && s.workers[pid].pc == Idle
    requires floor in s.workers[pid].floors && ReceiptKey(JOB) !in s.store && DeadKey(JOB) !in s.store
    requires IsPage(s.store, JOB, 0, page) && !page.more
    ensures Reached(cfg, s') && s'.clock == s.clock && s'.store == s.store
    ensures var t := AfterPage(FROM_START, page, s.clock);
            t.Listed? && s'.workers == s.workers[pid := s.workers[pid].(pc :=
              FromListing(Scan(JOB, floor, 0, guard), t.generation, t.time, t.seen))]
  {
    hide Reached, IsPage;
    var s1;
    s1, guard := GatherProbed(cfg, s, pid, floor);
    assert page.Page? by { PageIsPage(s.store, page); }
    Serve1(cfg, s1, pid, ListClaims(JOB, 0), page);
    s' := Answered(cfg, s1, pid, ListClaims(JOB, 0), page);
    var t := AfterPage(FROM_START, page, s.clock);
    assert s'.workers[pid].pc == FromListing(Scan(JOB, floor, 0, guard), t.generation, t.time, t.seen);
    assert s'.workers == s.workers[pid := s'.workers[pid]];
  }

  lemma PageIsPage(store: Store, page: Reply)
    requires IsPage(store, JOB, 0, page)
    ensures page.Page?
  {}

  function JobOf(max: nat): Record {
    Job(JOB, max, None, 0)
  }

  lemma EmptyPage(store: Store)
    requires forall g :: ClaimKey(JOB, g) !in store
    ensures IsPage(store, JOB, 0, Page([], [], false))
  {}

  /** The first claim of the job, up to its write. */
  lemma FirstClaimDecided(cfg: Config, s: State, pid: Pid, floor: nat, max: nat)
    returns (s': State, c: ClaimRecord, scan: Scan)
    requires Reached(cfg, s) && TailKey(JOB) !in s.store && s.clock < 900
    requires pid in s.workers && s.workers[pid].pc == Idle
    requires floor in s.workers[pid].floors && ReceiptKey(JOB) !in s.store && DeadKey(JOB) !in s.store
    requires (forall g :: ClaimKey(JOB, g) !in s.store) && JobKey(JOB) in s.store
             && s.store[JobKey(JOB)].record == JobOf(max) && max > 0
    ensures Reached(cfg, s') && s'.clock == s.clock && s'.store == s.store
    ensures c.job == JOB && c.generation == 1 && c.attempt == 1 && c.lease == 0
    ensures s'.workers == s.workers[pid := s.workers[pid].(pc :=
              Put(ClaimKey(JOB, 1), Claim(c), ForClaim(scan, false, 0), scan.guard, Putting))]
  {
    hide Reached, IsPage;
    EmptyPage(s.store);
    var s1, guard := GatherListed(cfg, s, pid, floor, Page([], [], false));
    var e := Evidence(0, 0, 0, 0, s.clock);
    scan := Scan(JOB, floor, 0, guard);
    assert s1.workers[pid].pc == ReadJob(scan, e, false);
    Serve1(cfg, s1, pid, Get(JobKey(JOB)), Found(s.store[JobKey(JOB)]));
    s' := Answered(cfg, s1, pid, Get(JobKey(JOB)), Found(s.store[JobKey(JOB)]));
    c := TakeoverRecord(s.workers[pid].id, scan, e, s1.now);
    assert s'.workers[pid].pc == Put(ClaimKey(JOB, 1), Claim(c), ForClaim(scan, false, 0), guard, Putting);
    assert s'.workers == s.workers[pid := s'.workers[pid]];
  }

  /** The first claim of the job, with an instantly expiring lease. */
  lemma FirstClaim(cfg: Config, s: State, pid: Pid, floor: nat, max: nat) returns (s': State, h: Handle, c: ClaimRecord)
    requires Reached(cfg, s) && TailKey(JOB) !in s.store && s.clock < 900
    requires pid in s.workers && s.workers[pid].pc == Idle
    requires floor in s.workers[pid].floors && ReceiptKey(JOB) !in s.store && DeadKey(JOB) !in s.store
    requires (forall g :: ClaimKey(JOB, g) !in s.store) && JobKey(JOB) in s.store
             && s.store[JobKey(JOB)].record == JobOf(max) && max > 0
    ensures Reached(cfg, s') && s'.clock == s.clock + 1
    ensures h.job == JOB && h.generation == 1 && h.attempt == 1 && h.lease == 0
    ensures s'.workers == s.workers[pid := s.workers[pid].(handles := s.workers[pid].handles + {h})]
    ensures c.attempt == 1 && c.lease == 0 && s'.store == s.store[ClaimKey(JOB, 1) := Object(Claim(c), s.clock + 1)]
  {
    hide Reached, IsPage;
    var s1, scan;
    s1, c, scan := FirstClaimDecided(cfg, s, pid, floor, max);
    Serve1(cfg, s1, pid, PutIfAbsent(ClaimKey(JOB, 1), Claim(c)), Committed);
    var s2 := Answered(cfg, s1, pid, PutIfAbsent(ClaimKey(JOB, 1), Claim(c)), Committed);
    assert s2.workers[pid].pc == ReadBack(c, 0);
    Serve1(cfg, s2, pid, Head(ClaimKey(JOB, 1)), Meta(s.clock + 1));
    s' := Answered(cfg, s2, pid, Head(ClaimKey(JOB, 1)), Meta(s.clock + 1));
    h := Handle(JOB, 1, 1, c.token, 0, s.clock + 1, 0);
    assert s'.workers == s.workers[pid := s.workers[pid].(handles := s.workers[pid].handles + {h})];
  }

  lemma OneClaimPage(store: Store, time: nat)
    requires forall g :: ClaimKey(JOB, g) in store <==> g == 1
    requires store[ClaimKey(JOB, 1)].time == time
    ensures IsPage(store, JOB, 0, Page([1], [time], false))
  {}

  /** A second claim finds the only attempt spent and stands before the dead record's write. */
  lemma ExhaustionGuarded(cfg: Config, s: State, pid: Pid, floor: nat, c: ClaimRecord, time: nat)
    returns (s': State, pc: Pc)
    requires Reached(cfg, s) && TailKey(JOB) !in s.store && s.clock < 900
    requires pid in s.workers && s.workers[pid].pc == Idle
    requires floor in s.workers[pid].floors && ReceiptKey(JOB) !in s.store && DeadKey(JOB) !in s.store
    requires (forall g :: ClaimKey(JOB, g) in s.store <==> g == 1)
             && s.store[ClaimKey(JOB, 1)] == Object(Claim(c), time)
    requires FailKey(JOB, 1) !in s.store && JobKey(JOB) in s.store && s.store[JobKey(JOB)].record == JobOf(1)
    requires c.attempt == 1 && c.lease == 0 && floor >= time + cfg.skew && time + cfg.skew < U64_MAX
    ensures Reached(cfg, s') && s'.clock == s.clock && s'.store == s.store
    ensures s'.workers == s.workers[pid := s.workers[pid].(pc := pc)]
    ensures pc.Put? && pc.key == DeadKey(JOB) && pc.record.Dead? && pc.purpose.ForExhaustion? && pc.stage == Putting
  {
    hide Reached, IsPage;
    OneClaimPage(s.store, time);
    var s1, guard := GatherListed(cfg, s, pid, floor, Page([1], [time], false));
    var scan, e := Scan(JOB, floor, 0, guard), Evidence(1, time, 1, 0, s.clock);
    assert s1.workers[pid].pc == TailRecord(scan, 1, time, s.clock);
    Serve1(cfg, s1, pid, Get(ClaimKey(JOB, 1)), Found(Object(Claim(c), time)));
    var s2 := Answered(cfg, s1, pid, Get(ClaimKey(JOB, 1)), Found(Object(Claim(c), time)));
    assert s2.workers[pid].pc == ReadFail(scan, e, false);
    Serve1(cfg, s2, pid, Get(FailKey(JOB, 1)), NotFound);
    var s3 := Answered(cfg, s2, pid, Get(FailKey(JOB, 1)), NotFound);
    assert s3.workers[pid].pc == ReadJob(scan, e, false);
    Serve1(cfg, s3, pid, Get(JobKey(JOB)), Found(s.store[JobKey(JOB)]));
    s' := Answered(cfg, s3, pid, Get(JobKey(JOB)), Found(s.store[JobKey(JOB)]));
    pc := s'.workers[pid].pc;
    assert s'.workers == s.workers[pid := s.workers[pid].(pc := pc)];
  }

  /** The first claim's holder passes the acknowledgment's guard and stands before the receipt's write. */
  lemma ReceiptGuarded(cfg: Config, s: State, pid: Pid, h: Handle) returns (s': State, pc: Pc)
    requires Reached(cfg, s) && s.clock < 900 && pid in s.workers && s.workers[pid].pc == Idle
    requires h in s.workers[pid].handles && h.job == JOB && DeadKey(JOB) !in s.store
    ensures Reached(cfg, s') && s'.clock == s.clock && s'.store == s.store
    ensures s'.workers == s.workers[pid := s.workers[pid].(pc := pc)]
    ensures pc.Put? && pc.key == ReceiptKey(JOB) && pc.record.Receipt? && pc.stage == Putting
  {
    hide Reached;
    var op := Acknowledge(h, []);
    var s1 := Begun(cfg, s, pid, op);
    Start1(cfg, s, pid, op);
    Serve1(cfg, s1, pid, Head(DeadKey(JOB)), NotFound);
    s' := Answered(cfg, s1, pid, Head(DeadKey(JOB)), NotFound);
    pc := s'.workers[pid].pc;
    assert s'.workers == s.workers[pid := s.workers[pid].(pc := pc)];
  }

  lemma Write1(cfg: Config, s: State, pid: Pid) returns (s': State)
    requires Reached(cfg, s) && s.clock < 900 && pid in s.workers
    requires var pc := s.workers[pid].pc; pc.Put? && pc.stage == Putting && pc.key !in s.store
    ensures Reached(cfg, s') && s'.clock == s.clock + 1
    ensures s'.store == s.store[s.workers[pid].pc.key := Object(s.workers[pid].pc.record, s.clock + 1)]
    ensures forall p :: p in s.workers && p != pid ==> p in s'.workers && s'.workers[p] == s.workers[p]
    ensures pid in s'.workers && (s.workers[pid].pc.purpose.ForEnqueue? || s.workers[pid].pc.purpose.ForFail? ==>
              s'.workers == s.workers[pid := s.workers[pid].(pc := Idle)])
  {
    hide Reached;
    var pc := s.workers[pid].pc;
    Serve1(cfg, s, pid, PutIfAbsent(pc.key, pc.record), Committed);
    s' := Answered(cfg, s, pid, PutIfAbsent(pc.key, pc.record), Committed);
  }

  // ---------- The run ----------

  lemma Setup(cfg: Config, max: nat) returns (s: State)
    requires max > 0
    ensures Reached(cfg, s) && s.clock == 1 && s.store == map[JobKey(JOB) := Object(JobOf(max), 1)]
    ensures s.workers == map[0 := Worker(0, {}, {}, Idle), 1 := Worker(1, {}, {}, Idle)]
  {
    var s0 := State(map[], 0, map[], map[], 0, map[], {});
    assert Run(cfg, [s0]) && [s0][|[s0]| - 1] == s0;
    var s1 := s0.(workers := s0.workers[0 := Worker(0, {}, {}, Idle)]);
    Extend(cfg, s0, Join(0, 0), s1);
    var s2 := s1.(workers := s1.workers[1 := Worker(1, {}, {}, Idle)]);
    Extend(cfg, s1, Join(1, 1), s2);
    var op := Enqueue(JOB, max, None, 0);
    Start1(cfg, s2, 0, op);
    var s3 := Begun(cfg, s2, 0, op);
    s := Write1(cfg, s3, 0);
    assert s.store == map[JobKey(JOB) := Object(JobOf(max), 1)];
    assert s.workers == map[0 := Worker(0, {}, {}, Idle), 1 := Worker(1, {}, {}, Idle)];
  }

  /** The first claim's holder and a second claimant, each past its guard and before its write. */
  lemma BothGuarded(cfg: Config) returns (s: State)
    requires cfg.skew == 0
    ensures Reached(cfg, s) && s.clock < 800 && ReceiptKey(JOB) !in s.store && DeadKey(JOB) !in s.store
    ensures 0 in s.workers && 1 in s.workers
    ensures var pc := s.workers[0].pc; pc.Put? && pc.key == ReceiptKey(JOB) && pc.stage == Putting
    ensures var pc := s.workers[1].pc; pc.Put? && pc.key == DeadKey(JOB) && pc.stage == Putting
  {
    hide Reached, Resume, Pending, Completes, Serves;
    var s1 := Setup(cfg, 1);
    var s2 := EstablishFloor1(cfg, s1, 0);
    var s3, h, c := FirstClaim(cfg, s2, 0, 2, 1);
    var s4 := EstablishFloor1(cfg, s3, 1);
    var s5, dead := ExhaustionGuarded(cfg, s4, 1, 4, c, 3);
    var receipt;
    s, receipt := ReceiptGuarded(cfg, s5, 0, h);
  }

  /** With no skew guard, some run ends with both a receipt and a dead record. */
  lemma BothTerminalsReachable(cfg: Config) returns (s: State)
    requires cfg.skew == 0
    ensures exists states :: Run(cfg, states) && states[|states| - 1] == s
    ensures ReceiptKey(JOB) in s.store && DeadKey(JOB) in s.store
  {
    hide Reached, Resume, Pending, Completes, Serves;
    var s1 := BothGuarded(cfg);
    var s2 := Write1(cfg, s1, 1);
    s := Write1(cfg, s2, 0);
    ReachedByRun(cfg, s);
  }

  lemma ReachedByRun(cfg: Config, s: State)
    requires Reached(cfg, s)
    ensures exists states :: Run(cfg, states) && states[|states| - 1] == s
  {}
}
