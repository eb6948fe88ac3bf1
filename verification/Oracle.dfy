/** The logical oracle: the abstract queue, one phase per job, that the core must refine. */
module Oracle {
  import opened Wrappers
  import opened Protocol

  datatype Terminal = Receipted | Died(reason: nat)

  datatype Phase =
    | Ready(notBefore: nat)
    | Claimed(generation: nat, attempt: nat, expiry: nat)
    | Backoff(generation: nat, attempt: nat, notBefore: nat)
    | Finished(terminal: Terminal)

  datatype JobState = JobState(maximumAttempts: nat, phase: Phase, output: Option<Digest>)

  // ---------- What each operation does to one job ----------

  predicate CanClaim(s: JobState, clock: nat) {
    match s.phase
    case Ready(nb) => clock >= nb
    case Backoff(_, a, nb) => clock >= nb && a < s.maximumAttempts
    case Claimed(_, a, e) => clock >= e && a < s.maximumAttempts
    case Finished(_) => false
  }

  /** A takeover is due but would exceed the attempts. */
  predicate ExhaustionDue(s: JobState, clock: nat) {
    match s.phase
    case Claimed(_, a, e) => clock >= e && a + 1 > s.maximumAttempts
    case Backoff(_, a, nb) => clock >= nb && a + 1 > s.maximumAttempts
    case _ => false
  }

  /** The generation and attempt of the next claim. */
  function NextClaim(p: Phase): (nat, nat) {
    match p
    case Claimed(g, a, _) => (g + 1, a + 1)
    case Backoff(g, a, _) => (g + 1, a + 1)
    case _ => (1, 1)
  }

  function Exhausted(s: JobState, clock: nat): JobState {
    if ExhaustionDue(s, clock) then s.(phase := Finished(Died(ATTEMPTS_EXHAUSTED))) else s
  }

  /** The claim scan as the oracle plays it: the exhaustion transition, then the claim. */
  function Claiming(s: JobState, clock: nat, lease: nat, base: nat): (JobState, Option<(nat, nat)>) {
    var t := Exhausted(s, clock);
    if CanClaim(t, clock) then
      var (g, a) := NextClaim(t.phase);
      (t.(phase := Claimed(g, a, Saturate(base + lease))), Some((g, a)))
    else (t, None)
  }

  /** A held claim's renewal: the next generation at the same attempt. */
  function Renewed(s: JobState, expiry: nat): (JobState, bool) {
    match s.phase
    case Claimed(g, a, _) => (s.(phase := Claimed(g + 1, a, expiry)), true)
    case _ => (s, false)
  }

  /** Only a held claim can end, or be put back. */
  function Ended(s: JobState, t: Terminal): (JobState, bool) {
    if s.phase.Claimed? then (s.(phase := Finished(t)), true) else (s, false)
  }

  function PutBack(s: JobState, until: nat): (JobState, bool) {
    match s.phase
    case Claimed(g, a, _) => (s.(phase := Backoff(g, a, until)), true)
    case _ => (s, false)
  }

  /** The first output under a held claim stays. */
  function Produced(s: JobState, digest: Digest): (JobState, bool) {
    if !s.phase.Claimed? then (s, false)
    else (if s.output.None? then s.(output := Some(digest)) else s, true)
  }

  // ---------- The oracle itself ----------

  class Oracle {
    var jobs: map<JobId, JobState>
    var clock: nat

    constructor ()
      ensures jobs == map[] && clock == 0
    {
      jobs, clock := map[], 0;
    }

    method AdvanceClockTo(ns: nat)
      modifies this`clock
      ensures clock == if ns > old(clock) then ns else old(clock)
    {
      if ns > clock {
        clock := ns;
      }
    }

    /** The first record of a job wins; the same envelope again is accepted. */
    method Enqueue(id: JobId, maximumAttempts: nat, notBefore: nat) returns (ok: bool)
      modifies this`jobs
      ensures id !in old(jobs) ==> ok && jobs == old(jobs)[id := JobState(maximumAttempts, Ready(notBefore), None)]
      ensures id in old(jobs) ==> ok == (old(jobs)[id].maximumAttempts == maximumAttempts) && jobs == old(jobs)
    {
      if id !in jobs {
        jobs := jobs[id := JobState(maximumAttempts, Ready(notBefore), None)];
        return true;
      }
      return jobs[id].maximumAttempts == maximumAttempts;
    }

    method ExhaustIfDue(id: JobId) returns (due: bool)
      modifies this`jobs
      ensures due == (id in old(jobs) && ExhaustionDue(old(jobs)[id], clock))
      ensures jobs == if id in old(jobs) then old(jobs)[id := Exhausted(old(jobs)[id], clock)] else old(jobs)
    {
      if id !in jobs {
        return false;
      }
      var s := jobs[id];
      due := match s.phase {
        case Claimed(_, a, e) => clock >= e && a + 1 > s.maximumAttempts
        case Backoff(_, a, nb) => clock >= nb && a + 1 > s.maximumAttempts
        case _ => false
      };
      if due {
        s := s.(phase := Finished(Died(ATTEMPTS_EXHAUSTED)));
      }
      jobs := jobs[id := s];
    }

    /** A claim succeeds exactly when the job can be claimed, takes the next generation and attempt,
        and expires its lease after the store's own time. It plays the exhaustion transition for an
        expired claim, and leaves an exhausted backoff to `ExhaustIfDue`. */
    method Claim(id: JobId, lease: nat, base: nat) returns (r: Option<(nat, nat)>)
      modifies this`jobs
      ensures id !in old(jobs) ==> r == None && jobs == old(jobs)
      ensures id in old(jobs) && old(jobs)[id].phase.Backoff? && ExhaustionDue(old(jobs)[id], clock) ==>
                r == None && jobs == old(jobs)
      ensures id in old(jobs) && !(old(jobs)[id].phase.Backoff? && ExhaustionDue(old(jobs)[id], clock)) ==>
                var (s, out) := Claiming(old(jobs)[id], clock, lease, base);
                r == out && jobs == old(jobs)[id := s]
    {
      if id !in jobs {
        return None;
      }
      var s := jobs[id];
      var expiry := Saturate(base + lease);
      match s.phase {
        case Ready(nb) =>
          if clock >= nb {
            s := s.(phase := Claimed(1, 1, expiry));
            r := Some((1, 1));
          } else {
            r := None;
          }
        case Backoff(g, a, nb) =>
          if clock >= nb && a < s.maximumAttempts {
            s := s.(phase := Claimed(g + 1, a + 1, expiry));
            r := Some((g + 1, a + 1));
          } else {
            r := None;
          }
        case Claimed(g, a, e) =>
          if clock >= e && a + 1 > s.maximumAttempts {
            s := s.(phase := Finished(Died(ATTEMPTS_EXHAUSTED)));
            r := None;
          } else if clock >= e {
            s := s.(phase := Claimed(g + 1, a + 1, expiry));
            r := Some((g + 1, a + 1));
          } else {
            r := None;
          }
        case Finished(_) => r := None;
      }
      jobs := jobs[id := s];
    }

    /** The claim scan as the driver plays it. */
    method ScanClaim(id: JobId, lease: nat, base: nat) returns (r: Option<(nat, nat)>)
      modifies this`jobs
      ensures id !in old(jobs) ==> r == None && jobs == old(jobs)
      ensures id in old(jobs) ==>
                var (s, out) := Claiming(old(jobs)[id], clock, lease, base);
                r == out && jobs == old(jobs)[id := s]
    {
      var due := ExhaustIfDue(id);
      r := Claim(id, lease, base);
    }

    method Renew(id: JobId, lease: nat) returns (ok: bool)
      modifies this`jobs
      ensures id !in old(jobs) ==> !ok && jobs == old(jobs)
      ensures id in old(jobs) ==>
                var (s, out) := Renewed(old(jobs)[id], Saturate(clock + lease));
                ok == out && jobs == old(jobs)[id := s]
    {
      if id !in jobs || !jobs[id].phase.Claimed? {
        return false;
      }
      var p := jobs[id].phase;
      jobs := jobs[id := jobs[id].(phase := Claimed(p.generation + 1, p.attempt, Saturate(clock + lease)))];
      return true;
    }

    /** Corrects the held claim's expiry from the store time of the claim object. */
    method OverrideExpiry(id: JobId, base: nat, lease: nat)
      modifies this`jobs
      ensures jobs.Keys == old(jobs).Keys && forall j :: j in jobs && j != id ==> jobs[j] == old(jobs)[j]
      ensures id in old(jobs) ==>
                jobs[id] == if old(jobs)[id].phase.Claimed?
                            then old(jobs)[id].(phase :=
                                Claimed(old(jobs)[id].phase.generation, old(jobs)[id].phase.attempt,
                                        Saturate(base + lease)))
                            else old(jobs)[id]
    {
      if id in jobs && jobs[id].phase.Claimed? {
        var p := jobs[id].phase;
        jobs := jobs[id := jobs[id].(phase := Claimed(p.generation, p.attempt, Saturate(base + lease)))];
      }
    }

    /** A renewal as the driver plays it: the expiry counts from the store time it observed. */
    method RenewObserved(id: JobId, lease: nat, base: nat) returns (ok: bool)
      modifies this`jobs
      ensures id !in old(jobs) ==> !ok && jobs == old(jobs)
      ensures id in old(jobs) ==>
                var (s, out) := Renewed(old(jobs)[id], Saturate(base + lease));
                ok == out && jobs == old(jobs)[id := s]
    {
      ok := Renew(id, lease);
      if ok {
        OverrideExpiry(id, base, lease);
        assert jobs == old(jobs)[id := Renewed(old(jobs)[id], Saturate(base + lease)).0];
      }
    }

    method Ack(id: JobId) returns (ok: bool)
      modifies this`jobs
      ensures id !in old(jobs) ==> !ok && jobs == old(jobs)
      ensures id in old(jobs) ==>
                var (s, out) := Ended(old(jobs)[id], Receipted); ok == out && jobs == old(jobs)[id := s]
    {
      if id !in jobs || !jobs[id].phase.Claimed? {
        return false;
      }
      jobs := jobs[id := jobs[id].(phase := Finished(Receipted))];
      return true;
    }

    method Bury(id: JobId, reason: nat) returns (ok: bool)
      modifies this`jobs
      ensures id !in old(jobs) ==> !ok && jobs == old(jobs)
      ensures id in old(jobs) ==>
                var (s, out) := Ended(old(jobs)[id], Died(reason)); ok == out && jobs == old(jobs)[id := s]
    {
      if id !in jobs || !jobs[id].phase.Claimed? {
        return false;
      }
      jobs := jobs[id := jobs[id].(phase := Finished(Died(reason)))];
      return true;
    }

    method Nack(id: JobId, notBefore: nat) returns (ok: bool)
      modifies this`jobs
      ensures id !in old(jobs) ==> !ok && jobs == old(jobs)
      ensures id in old(jobs) ==>
                var (s, out) := PutBack(old(jobs)[id], notBefore); ok == out && jobs == old(jobs)[id := s]
    {
      if id !in jobs || !jobs[id].phase.Claimed? {
        return false;
      }
      var p := jobs[id].phase;
      jobs := jobs[id := jobs[id].(phase := Backoff(p.generation, p.attempt, notBefore))];
      return true;
    }

    /** The first output committed under a claim is the job's output for good. */
    method CommitOutput(id: JobId, digest: Digest) returns (ok: bool)
      modifies this`jobs
      ensures id !in old(jobs) ==> !ok && jobs == old(jobs)
      ensures id in old(jobs) ==>
                var (s, out) := Produced(old(jobs)[id], digest); ok == out && jobs == old(jobs)[id := s]
    {
      if id !in jobs || !jobs[id].phase.Claimed? {
        return false;
      }
      if jobs[id].output.None? {
        jobs := jobs[id := jobs[id].(output := Some(digest))];
      }
      return true;
    }
  }
}
