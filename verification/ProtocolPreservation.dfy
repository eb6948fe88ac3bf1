/** Every action of the protocol keeps the invariant. */
module ProtocolPreservation {
  import opened Wrappers
  import opened Protocol
  import opened ProtocolInvariant

  // ---------- The acting worker ----------

  /** What a reply tells about the store right after the call. */
  ghost predicate Truthful(s: State, call: Call, reply: Reply) {
    match reply
    case NotFound => !call.PutIfAbsent? && (call.Head? || call.Get? ==> call.key !in s.store)
    case Meta(t) => call.Head? && call.key in s.store && s.store[call.key].time == t
    case Found(o) => call.Get? && call.key in s.store && s.store[call.key] == o
    case Committed => call.PutIfAbsent? && call.key in s.store && s.store[call.key].record == call.record
    case Rejected => call.PutIfAbsent? && call.key in s.store
    case Page(_, _, _) => call.ListClaims? && IsPage(s.store, call.job, call.after, reply)
    case Watermark(_) => call == ReadWatermark
    case _ => true
  }

  /** The floor is a lower bound on store time up to the skew guard, whatever the watermark says. */
  lemma RaiseIsBounded(cfg: Config, raw: nat, bucket: Option<nat>)
    ensures Raised(cfg, raw, bucket).Some? ==> raw <= Raised(cfg, raw, bucket).value <= raw + cfg.skew
  {}

  lemma PageTail(s: State, j: JobId, t: Tail, reply: Reply)
    requires t.Listing? && TailOk(s, j, t) && Truthful(s, ListClaims(j, t.after), reply)
    requires forall g :: ClaimKey(j, g) in s.store ==> s.store[ClaimKey(j, g)].time <= s.clock
    ensures TailOk(s, j, AfterPage(t, reply, s.clock))
  {
    if reply.Page? {
      var gens := reply.generations;
      var t' := AfterPage(t, reply, s.clock);
      if |gens| > 0 {
        assert ClaimKey(j, gens[|gens| - 1]) in s.store;
      }
    }
  }

  lemma TailResumes(s: State, j: JobId, t: Tail, call: Call, reply: Reply)
    requires TailPending(j, t, call) && TailOk(s, j, t) && Truthful(s, call, reply)
    requires forall g :: ClaimKey(j, g) in s.store ==> g >= 1 && s.store[ClaimKey(j, g)].time <= s.clock
    ensures TailOk(s, j, AfterTail(t, reply, s.clock))
  {
    if t.Listing? {
      PageTail(s, j, t, reply);
    }
  }

  lemma GatherLeaves(cfg: Config, s: State, p: Pid, pc: Pc)
    requires p in s.workers && pc.Gather? && PcOk(cfg, s, p, pc)
    ensures PcOk(cfg, s, p, Gathered(pc))
  {}

  lemma GatherResumes(cfg: Config, s: State, p: Pid, w: Worker, call: Call, reply: Reply, now: nat, token: Token)
    requires ChainTimes(s) && p in s.workers && w.pc.Gather? && PcOk(cfg, s, p, w.pc)
    requires Pending(w.pc, call) && Truthful(s, call, reply) && now < s.now
    ensures PcOk(cfg, s, p, Resume(cfg, w, call, reply, now, s.clock, token).pc)
  {
    var Gather(sc, r, d, t) := w.pc;
    if r.None? && call == Head(ReceiptKey(sc.job)) {
      GatherLeaves(cfg, s, p, Gather(sc.(guard := now), Some(ProbeOf(reply)), d, t));
    } else if d.None? && call == Head(DeadKey(sc.job)) {
      GatherLeaves(cfg, s, p, Gather(sc, r, Some(ProbeOf(reply)), t));
    } else {
      TailResumes(s, sc.job, t, call, reply);
      GatherLeaves(cfg, s, p, Gather(sc, r, d, AfterTail(t, reply, s.clock)));
    }
  }

  lemma RelistResumes(cfg: Config, s: State, p: Pid, w: Worker, call: Call, reply: Reply, now: nat, token: Token)
    requires ChainTimes(s) && p in s.workers && w.pc.Relist? && PcOk(cfg, s, p, w.pc)
    requires Pending(w.pc, call) && Truthful(s, call, reply)
    ensures PcOk(cfg, s, p, Resume(cfg, w, call, reply, now, s.clock, token).pc)
  {
    TailResumes(s, w.pc.scan.job, w.pc.tail, call, reply);
  }

  ghost predicate ChainTimes(s: State) {
    forall j, g :: ClaimKey(j, g) in s.store ==> g >= 1 && s.store[ClaimKey(j, g)].time <= s.clock
  }

  /** Claim paths that only read: the tail record and the fail record. */
  lemma ReadResumes(cfg: Config, s: State, p: Pid, w: Worker, call: Call, reply: Reply, now: nat, token: Token)
    requires p in s.workers && (w.pc.TailRecord? || w.pc.ReadFail?) && PcOk(cfg, s, p, w.pc)
    requires Pending(w.pc, call) && Truthful(s, call, reply)
    ensures PcOk(cfg, s, p, Resume(cfg, w, call, reply, now, s.clock, token).pc)
  {}

  /** The guards of renewal, acknowledgment and burial. */
  lemma GuardResumes(cfg: Config, s: State, p: Pid, w: Worker, call: Call, reply: Reply, now: nat, token: Token)
    requires p in s.workers && w.id == s.workers[p].id && PcOk(cfg, s, p, w.pc)
    requires w.pc.RenewReceipt? || w.pc.RenewDead? || w.pc.AckDead? || w.pc.BuryReceipt?
    requires Pending(w.pc, call) && Truthful(s, call, reply) && now < s.now
    ensures PcOk(cfg, s, p, Resume(cfg, w, call, reply, now, s.clock, token).pc)
  {
    if w.pc.AckDead? {
      assert Verified(cfg, s, w.pc.handle, w.pc.outputs, 0);
    }
  }

  lemma JobResumes(cfg: Config, s: State, p: Pid, w: Worker, call: Call, reply: Reply, now: nat, token: Token)
    requires p in s.workers && w.id == s.workers[p].id && w.pc.ReadJob? && PcOk(cfg, s, p, w.pc)
    requires Pending(w.pc, call) && Truthful(s, call, reply) && StoreTimes(s) && JobsTyped(s)
    requires token in s.owner && s.owner[token] == p
    ensures PcOk(cfg, s, p, Resume(cfg, w, call, reply, now, s.clock, token).pc)
  {
    var pc' := AfterJob(w.id, w.pc, reply, token);
    if pc'.Put? && pc'.purpose.ForClaim? {
      assert Admissible(cfg, s, p, pc'.record.claim);
    } else if pc'.Put? {
      assert w.pc.evidence.generation > 0;
    }
  }

  ghost predicate JobsTyped(s: State) {
    forall j :: JobKey(j) in s.store ==> s.store[JobKey(j)].record.Job? && s.store[JobKey(j)].record.maximumAttempts > 0
  }

  ghost predicate StoreTimes(s: State) {
    forall k :: k in s.store && !k.TailKey? ==> 0 < s.store[k].time <= s.clock
  }

  lemma OutputResumes(cfg: Config, s: State, p: Pid, w: Worker, call: Call, reply: Reply, now: nat, token: Token)
    requires p in s.workers && w.id == s.workers[p].id && w.pc.AckOutput? && PcOk(cfg, s, p, w.pc)
    requires Pending(w.pc, call) && Truthful(s, call, reply)
    ensures PcOk(cfg, s, p, Resume(cfg, w, call, reply, now, s.clock, token).pc)
  {
    var AckOutput(h, o, i, _) := w.pc;
    if reply.Found? && reply.item.record.Output? && cfg.sha(reply.item.record.body) == o[i].digest {
      assert HasOutput(cfg, s.store, h.job, o[i].digest);
      assert Verified(cfg, s, h, o, i + 1);
    }
  }

  lemma PutResumes(cfg: Config, s: State, p: Pid, w: Worker, call: Call, reply: Reply, now: nat, token: Token)
    requires p in s.workers && w.pc.Put? && PutOk(cfg, s, p, w.pc) && Pending(w.pc, call) && Truthful(s, call, reply)
    ensures PcOk(cfg, s, p, Resume(cfg, w, call, reply, now, s.clock, token).pc)
  {
    match w.pc.purpose
    case ForRenewal(h) =>
      assert OwnedBy(s, RenewalRecord(s.workers[p].id, h), p);
    case _ =>
  }

  /** Program counters that only wait on floors, outputs, receipts or a read-back. */
  lemma PlainResumes(cfg: Config, s: State, p: Pid, w: Worker, call: Call, reply: Reply, now: nat, token: Token)
    requires p in s.workers && PcOk(cfg, s, p, w.pc) && StoreTimes(s)
    requires || w.pc.FloorPut? || w.pc.FloorHead? || w.pc.FloorGate? || w.pc.CommitPut? || w.pc.CommitRead?
             || w.pc.AckCompare? || w.pc.AckEquivalent? || w.pc.BuryCompare? || w.pc.EnqueueCompare? || w.pc.ReadBack?
    requires Pending(w.pc, call) && Truthful(s, call, reply)
    ensures PcOk(cfg, s, p, Resume(cfg, w, call, reply, now, s.clock, token).pc)
  {}

  /** One reply leaves the acting worker's program counter true of the store. */
  lemma PcResumes(cfg: Config, s: State, p: Pid, w: Worker, call: Call, reply: Reply, now: nat, token: Token)
    requires StoreTimes(s) && ChainTimes(s) && JobsTyped(s)
    requires p in s.workers && w.id == s.workers[p].id && PcOk(cfg, s, p, w.pc)
    requires Pending(w.pc, call) && Truthful(s, call, reply)
    requires now < s.now && token in s.owner && s.owner[token] == p
    ensures PcOk(cfg, s, p, Resume(cfg, w, call, reply, now, s.clock, token).pc)
  {
    if w.pc.Gather? {
      GatherResumes(cfg, s, p, w, call, reply, now, token);
    } else if w.pc.TailRecord? || w.pc.ReadFail? {
      ReadResumes(cfg, s, p, w, call, reply, now, token);
    } else if w.pc.ReadJob? {
      JobResumes(cfg, s, p, w, call, reply, now, token);
    } else if w.pc.Relist? {
      RelistResumes(cfg, s, p, w, call, reply, now, token);
    } else if w.pc.RenewReceipt? || w.pc.RenewDead? || w.pc.AckDead? || w.pc.BuryReceipt? {
      GuardResumes(cfg, s, p, w, call, reply, now, token);
    } else if w.pc.AckOutput? {
      OutputResumes(cfg, s, p, w, call, reply, now, token);
    } else if w.pc.Put? {
      PutResumes(cfg, s, p, w, call, reply, now, token);
    } else {
      PlainResumes(cfg, s, p, w, call, reply, now, token);
    }
  }

  lemma WorkerResumes(cfg: Config, s: State, p: Pid, w: Worker, call: Call, reply: Reply, now: nat, token: Token)
    requires StoreTimes(s) && ChainTimes(s) && JobsTyped(s)
    requires p in s.workers && w.id == s.workers[p].id && WorkerOk(cfg, s, p, w)
    requires Pending(w.pc, call) && Truthful(s, call, reply)
    requires now < s.now && token in s.owner && s.owner[token] == p
    ensures WorkerOk(cfg, s, p, Resume(cfg, w, call, reply, now, s.clock, token))
  {
    PcResumes(cfg, s, p, w, call, reply, now, token);
    var w' := Resume(cfg, w, call, reply, now, s.clock, token);
    if w.pc.FloorGate? && reply.Watermark? {
      RaiseIsBounded(cfg, w.pc.raw, reply.bucket);
    } else if w.pc.ReadBack? {
      assert forall h :: h in w'.handles ==> HandleOk(s, p, h);
    } else {
      assert w'.floors == w.floors && w'.handles == w.handles;
    }
  }
}
