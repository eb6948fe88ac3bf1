/** Advancing the shared watermark: the one object the protocol overwrites, by compare-and-swap
    against a version read separately from the record. Workers interleave at every store call and
    replies may be lost. */
module Watermark {
  import opened Wrappers

  datatype Object = Object(bucket: nat, sequence: nat, version: nat)

  datatype Stored = Missing | Present(item: Object)

  /** Where an advance to `bucket` stands. `seen` is the object its record read returned. */
  datatype Pc =
    | Idle
    | Reading(bucket: nat)
    | Creating(bucket: nat)
    | Heading(bucket: nat, seen: Object)
    | Swapping(bucket: nat, seen: Object, version: nat)
    | Covering(bucket: nat)
    | Done(bucket: nat)

  /** `written` is history: the object each version was written as. */
  datatype State = State(stored: Stored, next: nat, workers: map<nat, Pc>, written: map<nat, Object>)

  datatype Action = Start(pid: nat, bucket: nat) | Stop(pid: nat) | Serve(pid: nat, fault: Fault)

  // ---------- The code between two store calls ----------

  function AfterRead(b: nat, stored: Stored): Pc {
    match stored
    case Missing => Creating(b)
    case Present(o) => if b <= o.bucket then Done(b) else Heading(b, o)
  }

  function AfterCover(b: nat, stored: Stored): Pc {
    if stored.Present? && stored.item.bucket >= b then Done(b) else Reading(b)
  }

  /** A conditional write's reply: done, try again from the read, or look when it is unknown. */
  function AfterWrite(b: nat, fault: Fault, accepted: bool): Pc {
    match fault
    case Pass => if accepted then Done(b) else Reading(b)
    case PreTransmit => Idle
    case _ => Covering(b)
  }

  /** Whether the pending call, if applied, writes, and what. */
  function Writes(s: State, pc: Pc): Stored {
    match pc
    case Creating(b) => if s.stored.Missing? then Present(Object(b, 0, s.next)) else Missing
    case Swapping(b, seen, v) =>
      if s.stored.Present? && s.stored.item.version == v then Present(Object(b, seen.sequence + 1, s.next)) else Missing
    case _ => Missing
  }

  function Resume(s: State, pc: Pc, fault: Fault): Pc {
    match pc
    case Idle => Idle
    case Done(b) => Done(b)
    case Reading(b) => if fault == Pass then AfterRead(b, s.stored) else pc
    case Covering(b) => if fault == Pass then AfterCover(b, s.stored) else pc
    case Heading(b, seen) =>
      if fault == Pass && s.stored.Present? then Swapping(b, seen, s.stored.item.version) else Idle
    case Creating(b) => AfterWrite(b, fault, Writes(s, pc).Present?)
    case Swapping(b, _, _) => AfterWrite(b, fault, Writes(s, pc).Present?)
  }

  function Served(s: State, pid: nat, fault: Fault): State
    requires pid in s.workers
  {
    var pc := s.workers[pid];
    var w := if fault == Pass || fault == PostTransmitAfter then Writes(s, pc) else Missing;
    var workers := s.workers[pid := Resume(s, pc, fault)];
    if w.Present? then State(w, s.next + 1, workers, s.written[s.next := w.item]) else s.(workers := workers)
  }

  predicate Step(s: State, a: Action, s': State) {
    match a
    case Start(p, b) =>
      && (p in s.workers ==> s.workers[p].Idle? || s.workers[p].Done?)
      && s' == s.(workers := s.workers[p := Reading(b)])
    case Stop(p) => p in s.workers && s' == s.(workers := s.workers[p := Idle])
    case Serve(p, f) => p in s.workers && s' == Served(s, p, f)
  }

  ghost predicate Run(states: seq<State>, actions: seq<Action>) {
    && |states| == |actions| + 1
    && states[0] == State(Missing, 0, map[], map[])
    && forall i :: 0 <= i < |actions| ==> Step(states[i], actions[i], states[i + 1])
  }

  // ---------- What every state keeps ----------

  ghost predicate PcOk(s: State, pc: Pc) {
    match pc
    case Heading(b, seen) => seen.version in s.written && s.written[seen.version] == seen && b > seen.bucket
    case Swapping(b, seen, _) => seen.version in s.written && s.written[seen.version] == seen && b > seen.bucket
    case _ => true
  }

  ghost predicate Inv(s: State) {
    && (s.stored.Present? ==> s.stored.item.version in s.written && s.written[s.stored.item.version] == s.stored.item)
    && (forall v :: v in s.written ==> v < s.next && s.written[v].version == v)
    && (forall p :: p in s.workers ==> PcOk(s, s.workers[p]))
  }

  lemma StepKeepsInv(s: State, a: Action, s': State)
    requires Inv(s) && Step(s, a, s')
    ensures Inv(s')
  {}

  lemma {:induction false} RunKeepsInv(states: seq<State>, actions: seq<Action>, i: nat)
    requires Run(states, actions) && i < |states|
    ensures Inv(states[i])
  {
    if i > 0 {
      RunKeepsInv(states, actions, i - 1);
      StepKeepsInv(states[i - 1], actions[i - 1], states[i]);
    }
  }

  // ---------- Monotonicity ----------

  /** The record read and the version read of every pending swap are of one object. */
  ghost predicate SameObject(s: State) {
    forall p :: p in s.workers && s.workers[p].Swapping? ==> s.workers[p].version == s.workers[p].seen.version
  }

  /** Either nothing is written, or the watermark appears, or it is overwritten by a higher bucket
      with the next sequence number. */
  ghost predicate Advances(before: Stored, after: Stored) {
    || after == before
    || (before.Missing? && after.Present?)
    || (before.Present? && after.Present? && after.item.bucket > before.item.bucket
        && after.item.sequence == before.item.sequence + 1)
  }

  /** Each overwrite raises the bucket and raises the sequence by one. */
  lemma OverwriteAdvances(s: State, a: Action, s': State)
    requires Inv(s) && SameObject(s) && Step(s, a, s')
    ensures Advances(s.stored, s'.stored)
  {}

  ghost predicate Covers(s: State, bucket: nat) {
    s.stored.Present? && s.stored.item.bucket >= bucket
  }

  /** Over all interleavings in which each advance reads its record and its version from the same
      object, the stored bucket and sequence never decrease. */
  lemma {:induction false} WatermarkIsMonotone(states: seq<State>, actions: seq<Action>, i: nat, j: nat)
    requires Run(states, actions) && i <= j < |states|
    requires forall k :: 0 <= k < |states| ==> SameObject(states[k])
    ensures states[i].stored.Present? ==>
              && states[j].stored.Present?
              && states[i].stored.item.bucket <= states[j].stored.item.bucket
              && states[i].stored.item.sequence <= states[j].stored.item.sequence
  {
    if i < j {
      WatermarkIsMonotone(states, actions, i, j - 1);
      RunKeepsInv(states, actions, j - 1);
      OverwriteAdvances(states[j - 1], actions[j - 1], states[j]);
    }
  }

  lemma DoneCovers(s: State, a: Action, s': State, p: nat)
    requires Inv(s) && SameObject(s) && Step(s, a, s')
    requires p in s'.workers && s'.workers[p].Done?
    requires p in s.workers && s.workers[p].Done? ==> Covers(s, s.workers[p].bucket)
    ensures Covers(s', s'.workers[p].bucket)
  {
    OverwriteAdvances(s, a, s');
  }

  /** A call that returned success left the watermark at or above its bucket, then and ever after. */
  lemma {:induction false} SuccessCovers(states: seq<State>, actions: seq<Action>, i: nat, p: nat)
    requires Run(states, actions) && i < |states|
    requires forall k :: 0 <= k < |states| ==> SameObject(states[k])
    requires p in states[i].workers && states[i].workers[p].Done?
    ensures Covers(states[i], states[i].workers[p].bucket)
  {
    if i > 0 {
      RunKeepsInv(states, actions, i - 1);
      if p in states[i - 1].workers && states[i - 1].workers[p].Done? {
        SuccessCovers(states, actions, i - 1, p);
      }
      DoneCovers(states[i - 1], actions[i - 1], states[i], p);
    }
  }

  lemma SuccessLasts(states: seq<State>, actions: seq<Action>, i: nat, j: nat, p: nat)
    requires Run(states, actions) && i <= j < |states|
    requires forall k :: 0 <= k < |states| ==> SameObject(states[k])
    requires p in states[i].workers && states[i].workers[p].Done?
    ensures Covers(states[j], states[i].workers[p].bucket)
  {
    SuccessCovers(states, actions, i, p);
    WatermarkIsMonotone(states, actions, i, j);
  }

  // ---------- Exactly when an overwrite advances ----------

  /** Sequence numbers grow with versions, and the stored object is the latest. */
  ghost predicate Ordered(s: State) {
    && (forall v, v' :: v in s.written && v' in s.written && v < v' ==> s.written[v].sequence < s.written[v'].sequence)
    && (s.stored.Missing? ==> s.written == map[])
    && (s.stored.Present? ==> forall v :: v in s.written ==> v <= s.stored.item.version)
  }

  lemma LatestIsHighest(s: State)
    requires Inv(s) && Ordered(s) && s.stored.Present?
    ensures forall v :: v in s.written ==> s.written[v].sequence <= s.stored.item.sequence
  {}

  lemma AdvancesKeepOrder(s: State, a: Action, s': State)
    requires Inv(s) && Ordered(s) && Step(s, a, s') && Advances(s.stored, s'.stored)
    ensures Ordered(s')
  {
    if s'.stored != s.stored {
      StepWrites(s, a, s');
      if s.stored.Present? {
        LatestIsHighest(s);
      }
    }
  }

  lemma StepWrites(s: State, a: Action, s': State)
    requires Step(s, a, s') && s'.stored != s.stored
    ensures s'.stored.Present? && s'.stored.item.version == s.next && s'.written == s.written[s.next := s'.stored.item]
  {}

  lemma {:induction false} AdvancingRunIsOrdered(states: seq<State>, actions: seq<Action>, i: nat)
    requires Run(states, actions) && i < |states|
    requires forall k :: 0 <= k < i ==> Advances(states[k].stored, states[k + 1].stored)
    ensures Inv(states[i]) && Ordered(states[i])
  {
    if i > 0 {
      AdvancingRunIsOrdered(states, actions, i - 1);
      assert Advances(states[i - 1].stored, states[i - 1 + 1].stored);
      AdvancesKeepOrder(states[i - 1], actions[i - 1], states[i]);
      StepKeepsInv(states[i - 1], actions[i - 1], states[i]);
    }
  }

  /** The first overwrite of a run that fails to advance the watermark is exactly the first one
      whose record read and version read saw different objects. */
  lemma OverwriteAdvancesExactly(states: seq<State>, actions: seq<Action>, i: nat)
    requires Run(states, actions) && i < |actions|
    requires forall k :: 0 <= k < i ==> Advances(states[k].stored, states[k + 1].stored)
    requires states[i].stored.Present? && states[i + 1].stored != states[i].stored
    ensures actions[i].Serve? && states[i].workers[actions[i].pid].Swapping?
    ensures var pc := states[i].workers[actions[i].pid];
            Advances(states[i].stored, states[i + 1].stored) <==> pc.version == pc.seen.version
  {
    AdvancingRunIsOrdered(states, actions, i);
    var s := states[i];
    assert Step(s, actions[i], states[i + 1]);
    var pc := s.workers[actions[i].pid];
    assert PcOk(s, pc);
  }

  function At(s: State, p: nat, pc: Pc): State {
    s.(workers := s.workers[p := pc])
  }

  lemma Extend(states: seq<State>, actions: seq<Action>, a: Action, s: State)
    requires Run(states, actions) && Step(states[|states| - 1], a, s)
    ensures Run(states + [s], actions + [a])
  {
    var ss, aa := states + [s], actions + [a];
    forall i | 0 <= i < |aa| ensures Step(ss[i], aa[i], ss[i + 1]) {
      if i < |actions| {
        assert Step(states[i], actions[i], states[i + 1]);
      }
    }
  }

  /** One worker creates the watermark at bucket 1, and another reads that record to advance to 5. */
  lemma StaleRead() returns (states: seq<State>, actions: seq<Action>, s: State)
    ensures Run(states, actions) && states[|states| - 1] == s
    ensures s.stored == Present(Object(1, 0, 0)) && s.next == 1
    ensures s.workers == map[0 := Done(1), 1 := Heading(5, Object(1, 0, 0))]
  {
    s := State(Missing, 0, map[], map[]);
    states, actions := [s], [];
    var s1 := At(s, 0, Reading(1));
    Extend(states, actions, Start(0, 1), s1);
    var s2 := At(s1, 0, Creating(1));
    Extend([s, s1], [Start(0, 1)], Serve(0, Pass), s2);
    var s3 := Served(s2, 0, Pass);
    Extend([s, s1, s2], [Start(0, 1), Serve(0, Pass)], Serve(0, Pass), s3);
    states, actions := [s, s1, s2] + [s3], [Start(0, 1), Serve(0, Pass)] + [Serve(0, Pass)];
    var s4 := At(s3, 1, Reading(5));
    Extend(states, actions, Start(1, 5), s4);
    states, actions := states + [s4], actions + [Start(1, 5)];
    s := At(s4, 1, Heading(5, Object(1, 0, 0)));
    Extend(states, actions, Serve(1, Pass), s);
    states, actions := states + [s], actions + [Serve(1, Pass)];
  }

  /** A third worker reads, heads and swaps to bucket 9 meanwhile. */
  lemma Overtaken() returns (states: seq<State>, actions: seq<Action>, s: State)
    ensures Run(states, actions) && states[|states| - 1] == s
    ensures s.stored == Present(Object(9, 1, 1)) && s.next == 2
    ensures s.workers == map[0 := Done(1), 1 := Heading(5, Object(1, 0, 0)), 2 := Done(9)]
  {
    states, actions, s := StaleRead();
    var s1 := At(s, 2, Reading(9));
    Extend(states, actions, Start(2, 9), s1);
    states, actions := states + [s1], actions + [Start(2, 9)];
    var s2 := At(s1, 2, Heading(9, Object(1, 0, 0)));
    Extend(states, actions, Serve(2, Pass), s2);
    states, actions := states + [s2], actions + [Serve(2, Pass)];
    var s3 := At(s2, 2, Swapping(9, Object(1, 0, 0), 0));
    Extend(states, actions, Serve(2, Pass), s3);
    states, actions := states + [s3], actions + [Serve(2, Pass)];
    s := Served(s3, 2, Pass);
    Extend(states, actions, Serve(2, Pass), s);
    states, actions := states + [s], actions + [Serve(2, Pass)];
  }

  /** A record read before another worker's swap and a version read after it: the swap then lowers
      the bucket from 9 to 5 and repeats sequence 1, undoing a success already reported. */
  lemma StaleRecordLowersWatermark() returns (states: seq<State>, actions: seq<Action>, i: nat)
    ensures Run(states, actions) && i + 2 == |states| - 1
    ensures states[i].stored == Present(Object(9, 1, 1)) && states[i + 2].stored == Present(Object(5, 1, 2))
  {
    var s;
    states, actions, s := Overtaken();
    i := |states| - 1;
    var s1 := At(s, 1, Swapping(5, Object(1, 0, 0), 1));
    Extend(states, actions, Serve(1, Pass), s1);
    states, actions := states + [s1], actions + [Serve(1, Pass)];
    var s2 := Served(s1, 1, Pass);
    Extend(states, actions, Serve(1, Pass), s2);
    states, actions := states + [s2], actions + [Serve(1, Pass)];
  }
}
