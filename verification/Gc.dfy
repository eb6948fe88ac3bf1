/** Retention garbage collection: orphans, beacons and terminal graphs, each graph deleted in
    strict order with the terminal record last. Listings may return any stored keys or be complete,
    deletes may silently fail, and the pass may be cut after any store call. */
module Gc {
  import opened Wrappers
  import opened Bytes
  import opened Keys
  import opened Budget
  import opened Listing
  import TermEntry

  type Objects = map<Key, nat>

  datatype Deletion = Deletion(key: Key, took: bool)

  /** The objects left after a run of delete calls. */
  function Replay(objects: Objects, log: seq<Deletion>): Objects
    decreases |log|
  {
    if log == [] then objects
    else
      var d, before := log[|log| - 1], Replay(objects, log[..|log| - 1]);
      if d.took then before - {d.key} else before
  }

  datatype Prefix =
    | AllPayloads
    | AllClaims
    | Beacons
    | TermIndexes
    | LeasesOf(shard: u16, id: Bytes16)
    | DelayedOf(shard: u16, id: Bytes16)
    | FailsOf(shard: u16, id: Bytes16)
    | ClaimsOf(shard: u16, id: Bytes16)
    | PayloadsOf(id: Bytes16)

  predicate Under(p: Prefix, k: Key) {
    match p
    case AllPayloads => k.Payload?
    case AllClaims => k.Claim?
    case Beacons => k.Beacon?
    case TermIndexes => k.TermIndex?
    case LeasesOf(s, id) => k.LeaseIndex? && k.shard == s && k.jobId == id
    case DelayedOf(s, id) => k.DelayIndex? && k.shard == s && k.jobId == id
    case FailsOf(s, id) => k.Fail? && k.shard == s && k.jobId == id
    case ClaimsOf(s, id) => k.Claim? && k.shard == s && k.jobId == id
    case PayloadsOf(id) => k.Payload? && k.jobId == id
  }

  /** A job's terminal graph, as its terminal index entry names it; no bucket for an entry outside
      the key grammar. */
  datatype Graph = Graph(bucket: Option<u64>, kind: TermKind, shard: u16, id: Bytes16) {
    function Index(): Option<Key> {
      if bucket.Some? then Some(TermIndex(bucket.value, kind, shard, id)) else None
    }

    function Terminal(): Key {
      if kind.TermReceipt? then Receipt(shard, id) else Dead(shard, id)
    }

    function JobKey(): Key {
      Job(shard, id)
    }
  }

  // ---------- The strict order ----------

  /** A key's place in the deletion order of a graph, or 8 for a key outside it. */
  function Stage(k: Key, g: Graph): nat {
    if Under(LeasesOf(g.shard, g.id), k) || Under(DelayedOf(g.shard, g.id), k) then 0
    else if Some(k) == g.Index() then 1
    else if k == Tail(g.shard, g.id) then 2
    else if Under(FailsOf(g.shard, g.id), k) then 3
    else if Under(ClaimsOf(g.shard, g.id), k) then 4
    else if Under(PayloadsOf(g.id), k) then 5
    else if k == g.JobKey() then 6
    else if k == g.Terminal() then 7
    else 8
  }

  /** The order, kind by kind: lease and delay entries, the index entry, the tail hint, fail records,
      claims, payloads, the job record and last the terminal record, all of this job and shard. */
  lemma StagesExactly(k: Key, g: Graph)
    ensures Stage(k, g) == match k
                           case LeaseIndex(_, s, id, _) => if s == g.shard && id == g.id then 0 else 8
                           case DelayIndex(_, s, id) => if s == g.shard && id == g.id then 0 else 8
                           case TermIndex(b, kind, s, id) => if Graph(Some(b), kind, s, id) == g then 1 else 8
                           case Tail(s, id) => if s == g.shard && id == g.id then 2 else 8
                           case Fail(s, id, _) => if s == g.shard && id == g.id then 3 else 8
                           case Claim(s, id, _) => if s == g.shard && id == g.id then 4 else 8
                           case Payload(id, _) => if id == g.id then 5 else 8
                           case Job(s, id) => if s == g.shard && id == g.id then 6 else 8
                           case Receipt(s, id) => if s == g.shard && id == g.id && g.kind.TermReceipt? then 7 else 8
                           case Dead(s, id) => if s == g.shard && id == g.id && g.kind.TermDead? then 7 else 8
                           case _ => 8
  {}

  /** No stage above `st` yet, and none out of order. */
  ghost predicate Upto(log: seq<Deletion>, st: nat, g: Graph) {
    && (forall i :: 0 <= i < |log| ==> Stage(log[i].key, g) <= st)
    && (forall i, j :: 0 <= i < j < |log| ==> Stage(log[i].key, g) <= Stage(log[j].key, g))
  }

  /** Everything of the graph in stages up to the payloads, then the job record, then the terminal
      record; cut anywhere. */
  ghost predicate GraphLog(log: seq<Deletion>, g: Graph) {
    || Upto(log, 5, g)
    || (|log| >= 1 && Upto(log[..|log| - 1], 5, g) && log[|log| - 1].key == g.JobKey())
    || (|log| >= 2 && Upto(log[..|log| - 2], 5, g) && log[|log| - 2].key == g.JobKey()
        && log[|log| - 1].key == g.Terminal())
  }

  /** The call for this key took effect. */
  ghost predicate Took(log: seq<Deletion>, k: Key) {
    exists i :: 0 <= i < |log| && log[i].key == k && log[i].took
  }

  lemma {:induction false} ReplayHolds(objects: Objects, log: seq<Deletion>, k: Key)
    ensures k in Replay(objects, log) <==> k in objects && !Took(log, k)
    ensures k in Replay(objects, log) ==> Replay(objects, log)[k] == objects[k]
    decreases |log|
  {
    if log != [] {
      var init, d := log[..|log| - 1], log[|log| - 1];
      ReplayHolds(objects, init, k);
      if Took(init, k) {
        var i :| 0 <= i < |init| && init[i].key == k && init[i].took;
        assert log[i] == init[i];
      }
      if Took(log, k) && !(d.key == k && d.took) {
        var i :| 0 <= i < |log| && log[i].key == k && log[i].took;
        assert init[i] == log[i];
      }
    }
  }

  lemma {:induction false} ReplayAppends(objects: Objects, a: seq<Deletion>, b: seq<Deletion>)
    ensures Replay(objects, a + b) == Replay(Replay(objects, a), b)
    decreases |b|
  {
    if b == [] {
      assert a + b == a;
    } else {
      assert (a + b)[..|a + b| - 1] == a + b[..|b| - 1];
      ReplayAppends(objects, a, b[..|b| - 1]);
    }
  }

  lemma NotYet(log: seq<Deletion>, g: Graph)
    requires Upto(log, 5, g)
    ensures !Took(log, g.JobKey()) && !Took(log, g.Terminal())
  {
    assert Stage(g.JobKey(), g) == 6 && Stage(g.Terminal(), g) == 7;
  }

  lemma TookLast(log: seq<Deletion>, k: Key)
    requires log != []
    ensures Took(log, k) <==> Took(log[..|log| - 1], k) || log[|log| - 1] == Deletion(k, true)
  {
    var init := log[..|log| - 1];
    if Took(init, k) {
      var i :| 0 <= i < |init| && init[i].key == k && init[i].took;
      assert log[i] == init[i];
    }
    if Took(log, k) && log[|log| - 1] != Deletion(k, true) {
      var i :| 0 <= i < |log| && log[i].key == k && log[i].took;
      assert init[i] == log[i];
    }
  }

  /** Cut at any point: a job record is left without its terminal record exactly when the job
      record's delete silently failed and the terminal record's delete took effect. */
  lemma CutLeavesTerminal(objects: Objects, log: seq<Deletion>, g: Graph)
    requires GraphLog(log, g) && g.Terminal() in objects && g.JobKey() in objects
    ensures var after := Replay(objects, log);
            g.JobKey() in after && g.Terminal() !in after
            <==> && |log| > 1
                 && log[|log| - 1] == Deletion(g.Terminal(), true) && log[|log| - 2] == Deletion(g.JobKey(), false)
  {
    hide Upto, Stage;
    ReplayHolds(objects, log, g.JobKey());
    ReplayHolds(objects, log, g.Terminal());
    EndOfLog(log, g);
  }

  lemma EndOfLog(log: seq<Deletion>, g: Graph)
    requires GraphLog(log, g)
    ensures !Took(log, g.JobKey()) && Took(log, g.Terminal())
       <==> |log| > 1 && log[|log| - 1] == Deletion(g.Terminal(), true) && log[|log| - 2] == Deletion(g.JobKey(), false)
  {
    hide Took, Stage;
    if Upto(log, 5, g) {
      NotYet(log, g);
      if log != [] {
        TookLast(log, g.Terminal());
      }
    } else {
      var init := log[..|log| - 1];
      TookLast(log, g.Terminal());
      TookLast(log, g.JobKey());
      if Upto(init, 5, g) && log[|log| - 1].key == g.JobKey() {
        NotYet(init, g);
      } else {
        assert init[..|init| - 1] == log[..|log| - 2];
        NotYet(init[..|init| - 1], g);
        TookLast(init, g.JobKey());
        TookLast(init, g.Terminal());
      }
    }
  }

  /** So when deletes take effect, the job record's presence implies the terminal record's. */
  lemma EffectiveCutIsSafe(objects: Objects, log: seq<Deletion>, g: Graph)
    requires GraphLog(log, g) && (g.JobKey() in objects ==> g.Terminal() in objects)
    requires forall i :: 0 <= i < |log| ==> log[i].took
    ensures g.JobKey() in Replay(objects, log) ==> g.Terminal() in Replay(objects, log)
  {
    hide GraphLog;
    if g.JobKey() in objects {
      CutLeavesTerminal(objects, log, g);
    } else {
      ReplayHolds(objects, log, g.JobKey());
    }
  }

  lemma OnlyLess(before: Objects, after: Objects, g: Graph)
    requires Shrinks(before, after, g)
    ensures after.Keys <= before.Keys
  {}

  // Building a graph log, stage by stage.

  lemma NextDeletion(log: seq<Deletion>, d: Deletion, st: nat, g: Graph)
    requires Upto(log, st, g) && Stage(d.key, g) == st
    ensures Upto(log + [d], st, g)
  {
    hide Stage;
  }

  lemma NextStage(log: seq<Deletion>, st: nat, st': nat, g: Graph)
    requires Upto(log, st, g) && st <= st'
    ensures Upto(log, st', g)
  {}

  lemma StagesLogged(log: seq<Deletion>, g: Graph)
    requires Upto(log, 5, g)
    ensures GraphLog(log, g)
  {}

  lemma JobLogged(log: seq<Deletion>, job: Deletion, g: Graph)
    requires Upto(log, 5, g) && job.key == g.JobKey()
    ensures GraphLog(log + [job], g)
  {
    assert (log + [job])[..|log|] == log;
  }

  lemma TerminalLogged(log: seq<Deletion>, job: Deletion, terminal: Deletion, g: Graph)
    requires Upto(log, 5, g) && job.key == g.JobKey() && terminal.key == g.Terminal()
    ensures GraphLog(log + [job, terminal], g)
  {
    assert (log + [job, terminal])[..|log|] == log;
  }

  /** Only keys of the graph have gone. */
  ghost predicate Shrinks(before: Objects, after: Objects, g: Graph) {
    && (forall k :: k in after ==> k in before && after[k] == before[k])
    && (forall k :: k in before && k !in after ==> Stage(k, g) < 8)
  }

  lemma ShrinksOn(a: Objects, b: Objects, c: Objects, g: Graph)
    requires Shrinks(a, b, g) && Shrinks(b, c, g)
    ensures Shrinks(a, c, g)
  {
    hide Stage;
  }

  // ---------- What a deletion leaves ----------

  /** Nothing of the graph before this stage is left. */
  ghost predicate Cleared(now: Objects, st: nat, g: Graph) {
    forall k :: Stage(k, g) < st ==> k !in now
  }

  lemma IndexesGone(before: Objects, now: Objects, g: Graph)
    requires Shrinks(before, now, g)
    requires forall k :: Under(LeasesOf(g.shard, g.id), k) ==> k !in before
    requires forall k :: Under(DelayedOf(g.shard, g.id), k) ==> k !in now
    ensures Cleared(now, 1, g)
  {}

  /** The prefix of a stage that lists. */
  function Listed(st: nat, g: Graph): Prefix {
    if st == 3 then FailsOf(g.shard, g.id) else if st == 4 then ClaimsOf(g.shard, g.id) else PayloadsOf(g.id)
  }

  lemma PrefixGone(before: Objects, now: Objects, st: nat, g: Graph)
    requires Cleared(before, st, g) && Shrinks(before, now, g) && 3 <= st <= 5
    requires forall k :: Under(Listed(st, g), k) ==> k !in now
    ensures Cleared(now, st + 1, g)
  {}

  lemma KeyGone(before: Objects, now: Objects, st: nat, g: Graph)
    requires Cleared(before, st, g) && Shrinks(before, now, g) && st in {1, 2, 6, 7}
    requires st == 1 && g.Index().Some? ==> g.Index().value !in now
    requires st == 2 ==> Tail(g.shard, g.id) !in now
    requires st == 6 ==> g.JobKey() !in now
    requires st == 7 ==> g.Terminal() !in now
    ensures Cleared(now, st + 1, g)
  {}

  // ---------- What a pass must keep ----------

  /** The job's record is stored, and no terminal record of it is older than the cutoff. */
  predicate Protected(start: Objects, shardOf: Bytes16 -> u16, cutoff: nat, id: Bytes16) {
    var s := shardOf(id);
    && Job(s, id) in start
    && (Receipt(s, id) in start ==> start[Receipt(s, id)] >= cutoff)
    && (Dead(s, id) in start ==> start[Dead(s, id)] >= cutoff)
  }

  predicate OfJob(k: Key, id: Bytes16) {
    (k.Job? || k.Payload? || k.Claim? || k.Fail? || k.Receipt? || k.Dead?) && k.jobId == id
  }

  /** Keys carry the shard their job id hashes to. */
  ghost predicate Sharded(start: Objects, shardOf: Bytes16 -> u16) {
    forall k :: k in start && (k.Job? || k.Claim? || k.Receipt? || k.Dead?) ==> k.shard == shardOf(k.jobId)
  }

  /** Objects only disappear, and none of a protected job's do. */
  ghost predicate Keeps(start: Objects, now: Objects, shardOf: Bytes16 -> u16, cutoff: nat) {
    && (forall k :: k in now ==> k in start && now[k] == start[k])
    && (forall k, id :: k in start && OfJob(k, id) && Protected(start, shardOf, cutoff, id) ==> k in now)
  }

  /** The store times below which a pass collects terminal graphs, orphans and beacons. */
  datatype Limits = Limits(terminal: nat, orphan: nat, beacon: nat)

  /** What a pass may remove: an old beacon, an old payload or claim without a job record, an index
      entry without a terminal record, and the graph of an old terminal record. */
  ghost predicate Removable(o: Objects, k: Key, shardOf: Bytes16 -> u16, lim: Limits)
    requires k in o
  {
    || (k.Beacon? && o[k] < lim.beacon)
    || (k.Payload? && o[k] < lim.orphan && Job(shardOf(k.jobId), k.jobId) !in o)
    || (k.Claim? && o[k] < lim.orphan && Job(k.shard, k.jobId) !in o)
    || (k.TermIndex? && (if k.kind.TermReceipt? then Receipt(k.shard, k.jobId) else Dead(k.shard, k.jobId)) !in o)
    || exists g: Graph :: Stage(k, g) < 8 && g.Terminal() in o && o[g.Terminal()] < lim.terminal
  }

  /** Objects only disappear, and only removable ones. */
  ghost predicate Justified(o: Objects, now: Objects, shardOf: Bytes16 -> u16, lim: Limits) {
    && (forall k :: k in now ==> k in o && now[k] == o[k])
    && (forall k :: k in o && k !in now ==> Removable(o, k, shardOf, lim))
  }

  /** Index entries outside the grammar go only once their terminal record is gone or old. */
  ghost predicate StraysKept(o: Objects, before: set<Name>, now: set<Name>, lim: Limits) {
    && now <= before
    && forall name :: name in before && name !in now ==>
         && var e := TermEntry.ParseTermEntry(name);
         && e.Some? && var t := GraphOf(name, e.value).Terminal(); t in o ==> o[t] < lim.terminal
  }

  lemma StraysOn(o: Objects, a: set<Name>, b: set<Name>, c: set<Name>, lim: Limits)
    requires StraysKept(o, a, b, lim) && StraysKept(o, b, c, lim)
    ensures StraysKept(o, a, c, lim)
  {
    hide TermEntry.ParseTermEntry, GraphOf;
  }

  lemma StraysAll(o: Objects, strays: set<Name>, lim: Limits)
    ensures StraysKept(o, strays, strays, lim)
  {}

  lemma JustifiedAll(o: Objects, shardOf: Bytes16 -> u16, lim: Limits)
    ensures Justified(o, o, shardOf, lim)
  {}

  lemma JustifiedWithout(o: Objects, now: Objects, after: Objects, shardOf: Bytes16 -> u16, lim: Limits, k: Key)
    requires Justified(o, now, shardOf, lim) && (k in o ==> Removable(o, k, shardOf, lim))
    requires after == now || after == now - {k}
    ensures Justified(o, after, shardOf, lim)
  {
    hide Removable;
  }

  lemma JustifiedAfterGraph(o: Objects, now: Objects, after: Objects, shardOf: Bytes16 -> u16, lim: Limits, g: Graph)
    requires Justified(o, now, shardOf, lim) && Shrinks(now, after, g)
    requires g.Terminal() in now && now[g.Terminal()] < lim.terminal
    ensures Justified(o, after, shardOf, lim)
  {
    hide Stage;
  }

  /** A terminal record that has gone was past retention. */
  lemma TerminalWasOld(o: Objects, now: Objects, shardOf: Bytes16 -> u16, lim: Limits, g: Graph)
    requires Justified(o, now, shardOf, lim) && g.Terminal() in o && g.Terminal() !in now
    ensures o[g.Terminal()] < lim.terminal
  {
    hide Stage;
    var g': Graph :| Stage(g.Terminal(), g') < 8 && g'.Terminal() in o && o[g'.Terminal()] < lim.terminal;
    GraphHoldsOne(g.Terminal(), g');
  }

  /** An index entry may go once its terminal record is gone. */
  lemma EntryIsRemovable(o: Objects, now: Objects, shardOf: Bytes16 -> u16, lim: Limits, g: Graph)
    requires Justified(o, now, shardOf, lim) && g.Terminal() !in now && g.Index().Some? && g.Index().value in o
    ensures Removable(o, g.Index().value, shardOf, lim)
  {
    if g.Terminal() in o {
      TerminalWasOld(o, now, shardOf, lim, g);
      assert Stage(g.Index().value, g) < 8;
    }
  }

  /** An old payload or claim may go once its job record is gone. */
  lemma OrphanIsRemovable(o: Objects, now: Objects, shardOf: Bytes16 -> u16, lim: Limits, k: Key)
    requires Justified(o, now, shardOf, lim) && k in now && now[k] < lim.orphan
    requires (k.Payload? && Job(shardOf(k.jobId), k.jobId) !in now) || (k.Claim? && Job(k.shard, k.jobId) !in now)
    ensures Removable(o, k, shardOf, lim)
  {
    hide Stage;
    var job := Job(if k.Payload? then shardOf(k.jobId) else k.shard, k.jobId);
    if job in o {
      var g: Graph :| Stage(job, g) < 8 && g.Terminal() in o && o[g.Terminal()] < lim.terminal;
      GraphHoldsJob(k, job, g);
    }
  }

  /** A graph that holds a job's record holds its payloads and claims. */
  lemma GraphHoldsJob(k: Key, job: Key, g: Graph)
    requires job.Job? && Stage(job, g) < 8 && (k.Payload? || (k.Claim? && k.shard == job.shard)) && k.jobId == job.jobId
    ensures Stage(k, g) < 8
  {}

  /** So nothing of a protected job goes. */
  lemma JustifiedKeeps(o: Objects, now: Objects, shardOf: Bytes16 -> u16, lim: Limits)
    requires Justified(o, now, shardOf, lim) && Sharded(o, shardOf)
    ensures Keeps(o, now, shardOf, lim.terminal)
  {
    forall k, id | k in o && OfJob(k, id) && Protected(o, shardOf, lim.terminal, id) ensures k in now {
      ProtectedStays(o, shardOf, lim, k, id);
    }
  }

  lemma ProtectedStays(o: Objects, shardOf: Bytes16 -> u16, lim: Limits, k: Key, id: Bytes16)
    requires Sharded(o, shardOf) && k in o && OfJob(k, id) && Protected(o, shardOf, lim.terminal, id)
    ensures !Removable(o, k, shardOf, lim)
  {}

  /** A job record still stored has every terminal record it had. */
  ghost predicate Tombstones(start: Objects, now: Objects) {
    forall s: u16, id: Bytes16 {:trigger Job(s, id)} :: Job(s, id) in now ==>
      (Receipt(s, id) in start ==> Receipt(s, id) in now) && (Dead(s, id) in start ==> Dead(s, id) in now)
  }

  lemma TombstonesWithout(start: Objects, now: Objects, after: Objects, k: Key)
    requires Tombstones(start, now) && (after == now || after == now - {k}) && !k.Receipt? && !k.Dead?
    ensures Tombstones(start, after)
  {}

  /** Deletes of a graph that all take effect leave no job record without its terminal record. */
  lemma TombstonesAfterGraph(start: Objects, now: Objects, log: seq<Deletion>, g: Graph)
    requires Tombstones(start, now) && GraphLog(log, g) && AllTook(log) && g.Terminal() in now
    requires Shrinks(now, Replay(now, log), g)
    ensures Tombstones(start, Replay(now, log))
  {
    hide GraphLog, Replay;
    EffectiveCutIsSafe(now, log, g);
    var after := Replay(now, log);
    forall s: u16, id: Bytes16 | Job(s, id) in after
      ensures (Receipt(s, id) in start ==> Receipt(s, id) in after) && (Dead(s, id) in start ==> Dead(s, id) in after)
    {
      assert Job(s, id) in now;
    }
  }

  // ---------- What a pass must remove ----------

  /** A beacon, or a payload or claim without a job record, older than the limit. */
  predicate Due(o: Objects, k: Key, shardOf: Bytes16 -> u16, limit: nat) {
    && k in o && o[k] < limit
    && (k.Beacon? || (k.Payload? && Job(shardOf(k.jobId), k.jobId) !in o) || (k.Claim? && Job(k.shard, k.jobId) !in o))
  }

  /** No such key under the prefix is left. */
  ghost predicate Collected(o: Objects, now: Objects, p: Prefix, shardOf: Bytes16 -> u16, limit: nat) {
    forall k :: k in now && Under(p, k) ==> !Due(o, k, shardOf, limit)
  }

  /** An index entry is kept while its terminal record is within retention. Otherwise it goes, and
      with it the graph, if the record was there. */
  ghost predicate Settled(o: Objects, now: Objects, cutoff: nat, k: Key) {
    && k.TermIndex?
    && var g := Graph(Some(k.bucket), k.kind, k.shard, k.jobId);
    || (g.Terminal() in o && o[g.Terminal()] >= cutoff)
    || (k !in now && (g.Terminal() in o ==> Cleared(now, 8, g)))
  }

  /** Objects only disappear, a terminal record after everything else of its graph, and an index
      entry only once settled. */
  ghost predicate Orderly(o: Objects, now: Objects, cutoff: nat) {
    && (forall k :: k in now ==> k in o && now[k] == o[k])
    && (forall g: Graph :: g.bucket.None? && g.Terminal() in o && g.Terminal() !in now ==> Cleared(now, 8, g))
    && (forall k :: k in o && k.TermIndex? && k !in now ==> Settled(o, now, cutoff, k))
  }

  /** Everything a pass is for: orphans and beacons past their limits, and every graph past retention
      that an index entry names. */
  ghost predicate Complete(o: Objects, now: Objects, shardOf: Bytes16 -> u16, lim: Limits) {
    && Collected(o, now, AllPayloads, shardOf, lim.orphan) && Collected(o, now, AllClaims, shardOf, lim.orphan)
    && Collected(o, now, Beacons, shardOf, lim.beacon)
    && forall k :: k in o && k.TermIndex? ==> Settled(o, now, lim.terminal, k)
  }

  lemma SettledStays(o: Objects, now: Objects, after: Objects, cutoff: nat, k: Key)
    requires Settled(o, now, cutoff, k) && after.Keys <= now.Keys
    ensures Settled(o, after, cutoff, k)
  {
    hide Stage;
  }

  lemma OrderlyAll(o: Objects, cutoff: nat)
    ensures Orderly(o, o, cutoff)
  {}

  /** Losing one more key that is not of a terminal record or an index entry. */
  lemma OrderlyWithout(o: Objects, now: Objects, after: Objects, cutoff: nat, k: Key)
    requires Orderly(o, now, cutoff) && (after == now || after == now - {k})
    requires !k.Receipt? && !k.Dead? && !k.TermIndex?
    ensures Orderly(o, after, cutoff)
  {
    hide Settled, Stage;
    forall e | e in o && e.TermIndex? && e !in after ensures Settled(o, after, cutoff, e) {
      SettledStays(o, now, after, cutoff, e);
    }
  }

  /** An index entry whose terminal record is gone is settled by losing it. */
  lemma PruneSettles(o: Objects, now: Objects, after: Objects, cutoff: nat, g: Graph)
    requires Orderly(o, now, cutoff) && g.Index().Some? && g.Terminal() !in now
    requires after == now - {g.Index().value}
    ensures Settled(o, after, cutoff, g.Index().value)
  {
    if g.Terminal() in o {
      var bare := g.(bucket := None);
      assert bare.Terminal() == g.Terminal();
      forall k | Stage(k, g) < 8 ensures k !in after {
        assert Stage(k, bare) < 8 || Some(k) == g.Index();
      }
    }
  }

  lemma OrderlyPrune(o: Objects, now: Objects, after: Objects, cutoff: nat, g: Graph)
    requires Orderly(o, now, cutoff) && g.Index().Some? && g.Terminal() !in now
    requires after == now - {g.Index().value}
    ensures Orderly(o, after, cutoff) && Settled(o, after, cutoff, g.Index().value)
  {
    hide Settled, Stage;
    PruneSettles(o, now, after, cutoff, g);
    forall e | e in o && e.TermIndex? && e !in after ensures Settled(o, after, cutoff, e) {
      if e !in now {
        SettledStays(o, now, after, cutoff, e);
      }
    }
  }

  /** The terminal record and the index entry are the only ones of their kinds in a graph. */
  lemma GraphHoldsOne(k: Key, g: Graph)
    requires Stage(k, g) < 8
    ensures k.TermIndex? ==> Some(k) == g.Index()
    ensures k.Receipt? || k.Dead? ==> k == g.Terminal()
  {}

  lemma ClearedBare(now: Objects, g: Graph, bare: Graph)
    requires Cleared(now, 8, g) && bare.bucket.None? && bare.Terminal() == g.Terminal()
    ensures Cleared(now, 8, bare)
  {
    forall k | Stage(k, bare) < 8 ensures k !in now {
      assert Stage(k, g) < 8;
    }
  }

  /** A graph deleted whole. */
  lemma OrderlyAfterGraph(o: Objects, now: Objects, after: Objects, cutoff: nat, g: Graph)
    requires Orderly(o, now, cutoff) && g.Terminal() in now && Shrinks(now, after, g) && Cleared(after, 8, g)
    ensures Orderly(o, after, cutoff)
    ensures g.Index().Some? ==> Settled(o, after, cutoff, g.Index().value)
  {
    hide Stage;
    assert g.Index().Some? ==> Stage(g.Index().value, g) == 1 by {
      StagesOf(g);
    }
    forall b: Graph | b.bucket.None? && b.Terminal() in o && b.Terminal() !in after ensures Cleared(after, 8, b) {
      if b.Terminal() in now {
        GraphHoldsOne(b.Terminal(), g);
        ClearedBare(after, g, b);
      }
    }
    forall e | e in o && e.TermIndex? && e !in after ensures Settled(o, after, cutoff, e) {
      if e in now {
        GraphHoldsOne(e, g);
      } else {
        SettledStays(o, now, after, cutoff, e);
      }
    }
  }

  function Before(now: nat, horizon: nat): nat {
    if now >= horizon then now - horizon else 0
  }

  /** A store time below the limit is one more than the horizon ago. */
  lemma BeforeMeansOlder(now: nat, horizon: nat, t: nat)
    ensures t < Before(now, horizon) <==> t + horizon < now
  {}

  // ---------- The pass ----------


  datatype Report = Report(jobs: nat, orphans: nat, claimOrphans: nat, beacons: nat)

  const BEACON_HORIZON: nat := 300_000_000_000

  datatype Item = Item(key: Key, time: nat)

  /** Whether the delete `i` calls ahead takes effect; those not scripted do. */
  function Fate(takes: seq<bool>, i: nat): bool {
    i >= |takes| || takes[i]
  }

  function Later(takes: seq<bool>, i: nat): seq<bool> {
    if i >= |takes| then [] else takes[i..]
  }

  predicate AllTook(log: seq<Deletion>) {
    forall i :: 0 <= i < |log| ==> log[i].took
  }

  /** The end of a graph's deletion. */
  function RecordsLog(g: Graph, takes: seq<bool>): seq<Deletion> {
    [Deletion(g.JobKey(), Fate(takes, 0)), Deletion(g.Terminal(), Fate(takes, 1))]
  }

  /** All of it, when the listings find nothing. */
  function BareLog(g: Graph, takes: seq<bool>): seq<Deletion>
    requires g.Index().Some?
  {
    [Deletion(g.Index().value, Fate(takes, 0)), Deletion(Tail(g.shard, g.id), Fate(takes, 1))]
    + RecordsLog(g, Later(takes, 2))
  }

  function KeysOf(items: seq<Item>): set<Key> {
    set i | 0 <= i < |items| :: items[i].key
  }

  lemma OneMoreKey(items: seq<Item>, i: nat)
    requires i < |items|
    ensures KeysOf(items[..i + 1]) == KeysOf(items[..i]) + {items[i].key}
  {
    var more := items[..i + 1];
    assert more == items[..i] + [items[i]];
    assert forall j :: 0 <= j < i ==> more[j] == items[..i][j];
    assert more[i] == items[i];
  }

  class Collector {
    /** Listings are complete: one that ends has returned every key still stored under its prefix. */
    const exact: bool
    var objects: Objects
    /** Entries under the terminal index prefix that are not keys of the grammar. */
    var strays: set<Name>
    /** The keys each listing call will try to return, and which deletes will take effect. */
    var pages: seq<seq<Key>>
    var takes: seq<bool>
    ghost var start: Objects
    ghost var log: seq<Deletion>

    ghost predicate Valid()
      reads this
    {
      objects == Replay(start, log)
    }

    /** Every delete so far took effect, and every one to come will. */
    ghost predicate Lossless()
      reads this
    {
      AllTook(log) && forall i :: 0 <= i < |takes| ==> takes[i]
    }

    ghost predicate Sound(o: Objects, shardOf: Bytes16 -> u16, lim: Limits)
      reads this
    {
      Valid() && Justified(o, objects, shardOf, lim)
    }

    ghost predicate Effective(o: Objects)
      reads this
    {
      Lossless() && Tombstones(o, objects)
    }

    ghost predicate Thorough(o: Objects, cutoff: nat)
      reads this
    {
      exact && Lossless() && Orderly(o, objects, cutoff)
    }

    constructor (objects: Objects, strays: set<Name>, pages: seq<seq<Key>>, takes: seq<bool>, exact: bool)
      ensures Valid() && this.objects == objects && this.pages == pages && this.takes == takes && this.exact == exact
      ensures start == objects && log == []
    {
      this.objects, this.strays, this.pages, this.takes := objects, strays, pages, takes;
      this.exact := exact;
      start, log := objects, [];
    }

    /** Every stored key under the prefix that was not seen, with its time. */
    method ListRest(p: Prefix, seen: set<Key>) returns (items: seq<Item>)
      ensures forall i :: 0 <= i < |items| ==>
                Under(p, items[i].key) && items[i].key in objects && items[i].time == objects[items[i].key]
      ensures forall k :: k in objects && Under(p, k) ==> k in seen || k in KeysOf(items)
    {
      hide Under, KeysOf;
      items := [];
      var rest := set k | k in objects && Under(p, k) && k !in seen;
      while rest != {}
        invariant forall j :: 0 <= j < |items| ==>
          Under(p, items[j].key) && items[j].key in objects && items[j].time == objects[items[j].key]
        invariant forall k :: k in rest ==> Under(p, k) && k in objects
        invariant forall k :: k in objects && Under(p, k) ==> k in seen || k in rest || k in KeysOf(items)
        decreases |rest|
      {
        var key :| key in rest;
        rest := rest - {key};
        ghost var before := items;
        items := items + [Item(key, objects[key])];
        OneMoreKey(items, |before|);
        assert items[..|before|] == before && items[..|items|] == items;
      }
    }

    /** One page of a listing: some of the stored keys under the prefix, with their times. The keys
        seen on earlier pages stand for the cursor. */
    method List(p: Prefix, seen: set<Key>) returns (items: seq<Item>, more: bool)
      requires Valid()
      modifies this`pages
      ensures Valid()
      ensures forall i :: 0 <= i < |items| ==>
                Under(p, items[i].key) && items[i].key in objects && items[i].time == objects[items[i].key]
      ensures !exact && old(pages) == [] ==> items == [] && !more && pages == []
      ensures exact && (items == [] || !more) ==>
                forall k :: k in objects && Under(p, k) ==> k in seen || k in KeysOf(items)
    {
      hide Replay, Under, KeysOf;
      items, more := [], false;
      if pages != [] {
        var page := pages[0];
        pages := pages[1..];
        more := pages != [];
        for i := 0 to |page|
          invariant forall j :: 0 <= j < |items| ==>
            Under(p, items[j].key) && items[j].key in objects && items[j].time == objects[items[j].key]
        {
          if Under(p, page[i]) && page[i] in objects {
            items := items + [Item(page[i], objects[page[i]])];
          }
        }
      }
      if exact && (items == [] || !more) {
        more := false;
        items := ListRest(p, seen);
      }
    }

    /** One page of the terminal index: some of its entries' names, of the grammar or not. */
    method ListIndex(seen: set<Key>) returns (names: seq<Name>, more: bool, keys: set<Key>)
      requires Valid()
      modifies this`pages
      ensures Valid() && forall k :: k in keys ==> k.TermIndex? && Print(k) in names
      ensures exact && (names == [] || !more) ==> forall k :: k in objects && k.TermIndex? ==> k in seen || k in keys
    {
      hide Replay, Print;
      var items;
      items, more := List(TermIndexes, seen);
      names, keys := [], KeysOf(items);
      for i := 0 to |items|
        invariant Valid() && |names| == i && forall j :: 0 <= j < i ==> names[j] == Print(items[j].key)
      {
        names := names + [Print(items[i].key)];
      }
      var rest := strays;
      while rest != {}
        invariant Valid() && |names| >= |items| && forall j :: 0 <= j < |items| ==> names[j] == Print(items[j].key)
        decreases |rest|
      {
        var name :| name in rest;
        rest := rest - {name};
        names := names + [name];
      }
    }

    /** A delete call whose outcome is ignored. */
    method Delete(key: Key)
      requires Valid()
      modifies this`objects, this`takes, this`log
      ensures Valid() && (old(Lossless()) ==> Lossless() && key !in objects)
      ensures log == old(log) + [Deletion(key, Fate(old(takes), 0))] && takes == Later(old(takes), 1)
      ensures objects == if Fate(old(takes), 0) then old(objects) - {key} else old(objects)
    {
      var took := Fate(takes, 0);
      takes := Later(takes, 1);
      if took {
        objects := objects - {key};
      }
      log := log + [Deletion(key, took)];
      assert log[..|log| - 1] == old(log);
    }

    /** The same for an index entry outside the grammar. */
    method DeleteStray(name: Name)
      requires Valid()
      modifies this`strays, this`takes
      ensures Valid() && (old(Lossless()) ==> Lossless())
      ensures strays == if Fate(old(takes), 0) then old(strays) - {name} else old(strays)
    {
      if Fate(takes, 0) {
        strays := strays - {name};
      }
      takes := Later(takes, 1);
    }

    method Head(key: Key) returns (r: Option<nat>)
      ensures r == if key in objects then Some(objects[key]) else None
    {
      r := if key in objects then Some(objects[key]) else None;
    }

    /** The log since `base` is this graph's, up to the given stage. */
    ghost predicate Deleting(base: seq<Deletion>, st: nat, g: Graph)
      reads this
    {
      base <= log && Upto(log[|base|..], st, g)
    }

    method DeleteNext(key: Key, ghost base: seq<Deletion>, ghost st: nat, ghost g: Graph)
      requires Valid() && Deleting(base, st, g) && Stage(key, g) == st < 8
      modifies this`objects, this`takes, this`log
      ensures Valid() && Deleting(base, st, g) && Shrinks(old(objects), objects, g)
      ensures old(Lossless()) ==> Lossless() && key !in objects
      ensures log == old(log) + [Deletion(key, Fate(old(takes), 0))] && takes == Later(old(takes), 1)
    {
      hide Stage, Upto, Replay, Under;
      ghost var done := log[|base|..];
      Delete(key);
      NextDeletion(done, log[|old(log)|], st, g);
      assert log[|base|..] == done + [log[|old(log)|]];
    }

    /** Lists and deletes everything under a prefix of the graph; false when the budget ran out. */
    method DeleteUnder(p: Prefix, ghost base: seq<Deletion>, ghost st: nat, ghost g: Graph, budget: OpBudget)
      returns (ok: bool)
      requires Valid() && Deleting(base, st, g) && st < 8 && forall k :: Under(p, k) ==> Stage(k, g) == st
      modifies this`objects, this`takes, this`log, this`pages, budget
      ensures !ok ==> budget.ops == 0
      ensures Valid() && Deleting(base, st, g) && Shrinks(old(objects), objects, g) && budget.ops <= old(budget.ops)
      ensures old(Lossless()) ==> Lossless()
      ensures ok && exact && old(Lossless()) ==> forall k :: Under(p, k) ==> k !in objects
      ensures !exact && old(pages) == [] && old(budget.ops) > 0 ==>
                && ok && budget.ops == old(budget.ops) - 1
                && pages == [] && log == old(log) && takes == old(takes) && objects == old(objects)
    {
      hide Stage, Upto, Replay, Under, Shrinks, AllTook;
      Unshrunk(objects, g);
      var more, seen: set<Key> := true, {};
      while more
        invariant Valid() && Deleting(base, st, g) && Shrinks(old(objects), objects, g) && budget.ops <= old(budget.ops)
        invariant old(Lossless()) ==> Lossless() && seen !! objects.Keys
        invariant exact && old(Lossless()) && !more ==> forall k :: Under(p, k) ==> k !in objects
        invariant !exact && old(pages) == [] ==>
                    && more && budget.ops == old(budget.ops)
                    && pages == [] && log == old(log) && takes == old(takes) && objects == old(objects)
        decreases budget.ops, more
      {
        ok := budget.Spend();
        if !ok {
          return false;
        }
        var items;
        items, more := List(p, seen);
        if items == [] {
          break;
        }
        ghost var listed, ops := objects, budget.ops;
        for i := 0 to |items|
          invariant Valid() && Deleting(base, st, g) && Shrinks(old(objects), objects, g)
          invariant budget.ops <= ops && objects.Keys <= listed.Keys
          invariant old(Lossless()) ==> Lossless() && KeysOf(items[..i]) !! objects.Keys
        {
          ok := budget.Spend();
          if !ok {
            return false;
          }
          ghost var before := objects;
          DeleteNext(items[i].key, base, st, g);
          ShrinksOn(old(objects), before, objects, g);
          OnlyLess(before, objects, g);
          OneMoreKey(items, i);
        }
        assert items[..|items|] == items;
        seen := seen + KeysOf(items);
      }
      return true;
    }

    /** Deletes one terminal graph in strict order. However it ends, the log is a cut of that order
        and only the graph's keys have gone; finished, with complete listings and effective deletes,
        nothing of the graph is left. */
    method DeleteTerminalGraph(g: Graph, entry: Name, budget: OpBudget) returns (ok: bool)
      requires Valid()
      modifies this`objects, this`strays, this`takes, this`log, this`pages, budget
      ensures !ok ==> budget.ops == 0
      ensures old(strays) - {entry} <= strays <= old(strays)
      ensures Valid() && old(log) <= log && GraphLog(log[|old(log)|..], g)
      ensures objects == Replay(old(objects), log[|old(log)|..])
      ensures Shrinks(old(objects), objects, g) && budget.ops <= old(budget.ops) && (old(Lossless()) ==> Lossless())
      ensures ok && exact && old(Lossless()) ==> Cleared(objects, 8, g)
      ensures !exact && g.Index().Some? && old(pages) == [] && old(budget.ops) >= 9 ==>
                objects == Replay(old(objects), BareLog(g, old(takes)))
    {
      ok := DeleteInOrder(g, entry, budget);
      assert log == old(log) + log[|old(log)|..];
      ReplayAppends(start, old(log), log[|old(log)|..]);
    }

    method DeleteInOrder(g: Graph, entry: Name, budget: OpBudget) returns (ok: bool)
      requires Valid()
      modifies this`objects, this`strays, this`takes, this`log, this`pages, budget
      ensures !ok ==> budget.ops == 0
      ensures old(strays) - {entry} <= strays <= old(strays)
      ensures Valid() && start == old(start) && old(log) <= log && GraphLog(log[|old(log)|..], g)
      ensures Shrinks(old(objects), objects, g) && budget.ops <= old(budget.ops) && (old(Lossless()) ==> Lossless())
      ensures ok && exact && old(Lossless()) ==> Cleared(objects, 8, g)
      ensures !exact && g.Index().Some? && old(pages) == [] && old(budget.ops) >= 9 ==>
                log == old(log) + BareLog(g, old(takes))
    {
      hide Stage, Upto, Replay, Under, Shrinks, AllTook, GraphLog, RecordsLog, Cleared;
      ghost var base := log;
      ok := DeleteStages(base, g, entry, budget);
      ghost var done, o1 := log[|base|..], objects;
      assert log == base + done;
      StagesLogged(done, g);
      if !ok {
        return false;
      }
      ok := DeleteRecords(base, done, g, budget);
      ShrinksOn(old(objects), o1, objects, g);
    }

    /** The job record and, last, the terminal record. */
    method DeleteRecords(ghost base: seq<Deletion>, ghost done: seq<Deletion>, g: Graph, budget: OpBudget)
      returns (ok: bool)
      requires Valid() && log == base + done && Upto(done, 5, g)
      modifies this`objects, this`takes, this`log, budget
      ensures !ok ==> budget.ops == 0
      ensures Valid() && old(log) <= log && GraphLog(log[|base|..], g)
      ensures Shrinks(old(objects), objects, g) && budget.ops <= old(budget.ops) && (old(Lossless()) ==> Lossless())
      ensures old(budget.ops) >= 2 ==> log == base + done + RecordsLog(g, old(takes))
      ensures ok && old(Lossless()) && Cleared(old(objects), 6, g) ==> Cleared(objects, 8, g)
    {
      hide Stage, Upto, Replay, Under, Shrinks, AllTook, GraphLog, Cleared;
      Unshrunk(objects, g);
      StagesLogged(done, g);
      assert log[|base|..] == done;
      ok := budget.Spend();
      if !ok {
        return false;
      }
      ghost var job := Deletion(g.JobKey(), Fate(takes, 0));
      Delete(g.JobKey());
      ghost var o := objects;
      assert log[|base|..] == done + [job];
      JobLogged(done, job, g);
      GoneOf(old(objects), o, g.JobKey(), g);
      ok := budget.Spend();
      if !ok {
        return false;
      }
      ghost var terminal := Deletion(g.Terminal(), Fate(takes, 0));
      Delete(g.Terminal());
      assert log[|base|..] == done + [job, terminal];
      TerminalLogged(done, job, terminal, g);
      GoneOf(o, objects, g.Terminal(), g);
      ShrinksOn(old(objects), o, objects, g);
      if old(Lossless()) && Cleared(old(objects), 6, g) {
        KeyGone(old(objects), o, 6, g);
        KeyGone(o, objects, 7, g);
      }
      return true;
    }

    /** Everything before the job record. */
    method DeleteStages(ghost base: seq<Deletion>, g: Graph, entry: Name, budget: OpBudget) returns (ok: bool)
      requires Valid() && base == log
      modifies this`objects, this`strays, this`takes, this`log, this`pages, budget
      ensures !ok ==> budget.ops == 0
      ensures old(strays) - {entry} <= strays <= old(strays)
      ensures Valid() && Deleting(base, 5, g) && Shrinks(old(objects), objects, g) && budget.ops <= old(budget.ops)
      ensures old(Lossless()) ==> Lossless()
      ensures ok && exact && old(Lossless()) ==> Cleared(objects, 6, g)
      ensures !exact && g.Index().Some? && old(pages) == [] && old(budget.ops) >= 7 ==>
                && ok && budget.ops == old(budget.ops) - 7 && takes == Later(old(takes), 2)
                && log == base + [Deletion(g.Index().value, Fate(old(takes), 0)),
                                  Deletion(Tail(g.shard, g.id), Fate(old(takes), 1))]
    {
      hide Stage, Upto, Replay, Under, Shrinks, AllTook, Cleared;
      StagesOf(g);
      NothingDeleted(base, g);
      var prefixes := [LeasesOf(g.shard, g.id), DelayedOf(g.shard, g.id)];
      ghost var o := objects;
      Unshrunk(o, g);
      ok := DeleteUnder(prefixes[0], base, 0, g, budget);
      NextStage(log[|base|..], 0, 5, g);
      if !ok {
        return;
      }
      ghost var o1 := objects;
      ok := DeleteUnder(prefixes[1], base, 0, g, budget);
      NextStage(log[|base|..], 0, 5, g);
      ShrinksOn(o, o1, objects, g);
      if !ok {
        return;
      }
      ok := budget.Spend();
      if !ok {
        return;
      }
      if exact && old(Lossless()) {
        IndexesGone(o1, objects, g);
      }
      o1 := objects;
      NextStage(log[|base|..], 0, 1, g);
      if g.Index().Some? {
        DeleteNext(g.Index().value, base, 1, g);
      } else {
        DeleteStray(entry);
        Unshrunk(objects, g);
      }
      NextStage(log[|base|..], 1, 5, g);
      ShrinksOn(o, o1, objects, g);
      if exact && old(Lossless()) {
        KeyGone(o1, objects, 1, g);
      }
      ok := budget.Spend();
      if !ok {
        return;
      }
      o1 := objects;
      NextStage(log[|base|..], 1, 2, g);
      DeleteNext(Tail(g.shard, g.id), base, 2, g);
      NextStage(log[|base|..], 2, 3, g);
      NextStage(log[|base|..], 2, 5, g);
      ShrinksOn(o, o1, objects, g);
      if exact && old(Lossless()) {
        KeyGone(o1, objects, 2, g);
      }
      ok := DeleteChains(base, g, budget, o);
    }

    method DeleteChains(ghost base: seq<Deletion>, g: Graph, budget: OpBudget, ghost o: Objects) returns (ok: bool)
      requires Valid() && Deleting(base, 3, g) && Shrinks(o, objects, g)
      modifies this`objects, this`takes, this`log, this`pages, budget
      ensures !ok ==> budget.ops == 0
      ensures Valid() && Deleting(base, 5, g) && Shrinks(o, objects, g) && budget.ops <= old(budget.ops)
      ensures old(Lossless()) ==> Lossless()
      ensures ok && exact && old(Lossless()) && Cleared(old(objects), 3, g) ==> Cleared(objects, 6, g)
      ensures !exact && old(pages) == [] && old(budget.ops) >= 3 ==>
                ok && budget.ops == old(budget.ops) - 3 && takes == old(takes) && log == old(log)
    {
      hide Stage, Upto, Replay, Under, Shrinks, AllTook, Cleared;
      StagesOf(g);
      ghost var swept := exact && Lossless() && Cleared(objects, 3, g);
      ghost var o1 := objects;
      ok := DeleteUnder(Listed(3, g), base, 3, g, budget);
      NextStage(log[|base|..], 3, 5, g);
      ShrinksOn(o, o1, objects, g);
      if !ok {
        return;
      }
      if swept {
        PrefixGone(o1, objects, 3, g);
      }
      o1 := objects;
      NextStage(log[|base|..], 3, 4, g);
      ok := DeleteUnder(Listed(4, g), base, 4, g, budget);
      NextStage(log[|base|..], 4, 5, g);
      ShrinksOn(o, o1, objects, g);
      if !ok {
        return;
      }
      if swept {
        PrefixGone(o1, objects, 4, g);
      }
      o1 := objects;
      ok := DeleteUnder(Listed(5, g), base, 5, g, budget);
      ShrinksOn(o, o1, objects, g);
      if ok && swept {
        PrefixGone(o1, objects, 5, g);
      }
    }

    /** Deletes a removable key. */
    method Remove(k: Key, shardOf: Bytes16 -> u16, ghost o: Objects, ghost lim: Limits)
      requires Sound(o, shardOf, lim) && (k in o ==> Removable(o, k, shardOf, lim))
      requires !k.Receipt? && !k.Dead?
      modifies this`objects, this`takes, this`log
      ensures Sound(o, shardOf, lim) && (old(Effective(o)) ==> Effective(o))
      ensures old(Lossless()) ==> Lossless() && objects == old(objects) - {k}
      ensures objects.Keys <= old(objects).Keys
      ensures !k.TermIndex? && old(Thorough(o, lim.terminal)) ==> Thorough(o, lim.terminal)
    {
      hide Removable, Justified, Replay, Tombstones, AllTook, Orderly;
      Delete(k);
      JustifiedWithout(o, old(objects), objects, shardOf, lim, k);
      if old(Effective(o)) {
        TombstonesWithout(o, old(objects), objects, k);
      }
      if !k.TermIndex? && old(Thorough(o, lim.terminal)) {
        OrderlyWithout(o, old(objects), objects, lim.terminal, k);
      }
    }

    /** One payload or claim: deleted when older than the horizon and its job record is gone. */
    method CollectOrphan(item: Item, shardOf: Bytes16 -> u16, lim: Limits, ghost o: Objects, budget: OpBudget)
      returns (ok: bool, n: nat)
      requires Sound(o, shardOf, lim) && (item.key.Payload? || item.key.Claim?)
      modifies this`objects, this`takes, this`log, budget
      ensures !ok ==> budget.ops == 0
      ensures Sound(o, shardOf, lim) && (old(Effective(o)) ==> Effective(o))
      ensures budget.ops <= old(budget.ops) && objects.Keys <= old(objects).Keys
      ensures old(Thorough(o, lim.terminal)) ==> Thorough(o, lim.terminal)
      ensures ok && old(Thorough(o, lim.terminal)) && item.key in objects && item.time == o[item.key] ==>
                !Due(o, item.key, shardOf, lim.orphan)
    {
      hide Removable, Replay, Tombstones, AllTook;
      ok, n := true, 0;
      if item.time >= lim.orphan {
        return;
      }
      ok := budget.Spend();
      if !ok {
        return;
      }
      var k := item.key;
      var job := Head(Job(if k.Payload? then shardOf(k.jobId) else k.shard, k.jobId));
      if job.Some? {
        return;
      }
      ok := budget.Spend();
      if !ok {
        return;
      }
      var now := Head(k);
      if now.None? {
        n := 1;
      } else if now.value == item.time {
        ok := budget.Spend();
        if !ok {
          return;
        }
        OrphanIsRemovable(o, objects, shardOf, lim, k);
        Remove(k, shardOf, o, lim);
        n := 1;
      }
    }

    /** Payloads, or claims, older than the horizon whose job record is gone. */
    method CollectOrphans(payloads: bool, shardOf: Bytes16 -> u16, lim: Limits, ghost o: Objects, budget: OpBudget)
      returns (ok: bool, n: nat)
      requires Sound(o, shardOf, lim)
      modifies this`objects, this`takes, this`log, this`pages, budget
      ensures !ok ==> budget.ops == 0
      ensures Sound(o, shardOf, lim) && (old(Effective(o)) ==> Effective(o))
      ensures objects.Keys <= old(objects).Keys
      ensures old(Thorough(o, lim.terminal)) ==>
                Thorough(o, lim.terminal)
                && (ok ==> Collected(o, objects, if payloads then AllPayloads else AllClaims, shardOf, lim.orphan))
    {
      hide Removable, Replay, Tombstones, AllTook, Orderly, Due;
      var p := if payloads then AllPayloads else AllClaims;
      n := 0;
      var more, seen: set<Key> := true, {};
      while more
        invariant Sound(o, shardOf, lim) && (old(Effective(o)) ==> Effective(o))
        invariant objects.Keys <= old(objects).Keys
        invariant old(Thorough(o, lim.terminal)) ==>
                    && Thorough(o, lim.terminal)
                    && forall k :: k in seen && k in objects ==> !Due(o, k, shardOf, lim.orphan)
        invariant old(Thorough(o, lim.terminal)) && !more ==> Collected(o, objects, p, shardOf, lim.orphan)
        decreases budget.ops, more
      {
        ok := budget.Spend();
        if !ok {
          return;
        }
        var items;
        items, more := List(p, seen);
        if items == [] {
          break;
        }
        Listings(o, objects, items, shardOf, lim);
        ghost var listed, ops := objects, budget.ops;
        for i := 0 to |items|
          invariant Sound(o, shardOf, lim) && (old(Effective(o)) ==> Effective(o)) && budget.ops <= ops
          invariant objects.Keys <= listed.Keys
          invariant old(Thorough(o, lim.terminal)) ==>
                      && Thorough(o, lim.terminal)
                      && forall k :: k in KeysOf(items[..i]) && k in objects ==> !Due(o, k, shardOf, lim.orphan)
        {
          var done;
          OneMoreKey(items, i);
          ok, done := CollectOrphan(items[i], shardOf, lim, o, budget);
          n := n + done;
          if !ok {
            return;
          }
        }
        assert items[..|items|] == items;
        seen := seen + KeysOf(items);
      }
      ok := true;
    }

    /** Beacons past their use. */
    method CollectBeacons(shardOf: Bytes16 -> u16, lim: Limits, ghost o: Objects, budget: OpBudget)
      returns (ok: bool, n: nat)
      requires Sound(o, shardOf, lim)
      modifies this`objects, this`takes, this`log, this`pages, budget
      ensures !ok ==> budget.ops == 0
      ensures Sound(o, shardOf, lim) && (old(Effective(o)) ==> Effective(o))
      ensures objects.Keys <= old(objects).Keys
      ensures old(Thorough(o, lim.terminal)) ==>
                Thorough(o, lim.terminal) && (ok ==> Collected(o, objects, Beacons, shardOf, lim.beacon))
    {
      hide Removable, Replay, Tombstones, AllTook, Orderly;
      n := 0;
      var more, seen: set<Key> := true, {};
      while more
        invariant Sound(o, shardOf, lim) && (old(Effective(o)) ==> Effective(o))
        invariant objects.Keys <= old(objects).Keys
        invariant old(Thorough(o, lim.terminal)) ==>
                    && Thorough(o, lim.terminal)
                    && forall k :: k in seen && k in objects ==> !Due(o, k, shardOf, lim.beacon)
        invariant old(Thorough(o, lim.terminal)) && !more ==> Collected(o, objects, Beacons, shardOf, lim.beacon)
        decreases budget.ops, more
      {
        ok := budget.Spend();
        if !ok {
          return;
        }
        var items;
        items, more := List(Beacons, seen);
        if items == [] {
          break;
        }
        Listings(o, objects, items, shardOf, lim);
        ghost var listed, ops := objects, budget.ops;
        for i := 0 to |items|
          invariant Sound(o, shardOf, lim) && (old(Effective(o)) ==> Effective(o)) && budget.ops <= ops
          invariant objects.Keys <= listed.Keys
          invariant old(Thorough(o, lim.terminal)) ==>
                      && Thorough(o, lim.terminal)
                      && forall k :: k in KeysOf(items[..i]) && k in objects ==> !Due(o, k, shardOf, lim.beacon)
        {
          OneMoreKey(items, i);
          if items[i].time < lim.beacon {
            ok := budget.Spend();
            if !ok {
              return;
            }
            BeaconIsRemovable(o, items[i].key, shardOf, lim);
            Remove(items[i].key, shardOf, o, lim);
            n := n + 1;
          }
        }
        assert items[..|items|] == items;
        seen := seen + KeysOf(items);
      }
      ok := true;
    }

    /** One index entry: pruned when its terminal record is gone, its graph deleted when that is past
        retention, and skipped otherwise. */
    method CollectEntry(name: Name, shardOf: Bytes16 -> u16, lim: Limits, ghost o: Objects, budget: OpBudget)
      returns (ok: bool, n: nat)
      requires Sound(o, shardOf, lim)
      modifies this`objects, this`strays, this`takes, this`log, this`pages, budget
      ensures !ok ==> budget.ops == 0
      ensures StraysKept(o, old(strays), strays, lim)
      ensures Sound(o, shardOf, lim) && (old(Effective(o)) ==> Effective(o))
      ensures budget.ops <= old(budget.ops) && objects.Keys <= old(objects).Keys
      ensures ok && old(Thorough(o, lim.terminal)) ==>
                && Thorough(o, lim.terminal)
                && forall k: Key :: k.TermIndex? && name == Print(k) ==> Settled(o, objects, lim.terminal, k)
    {
      hide TermEntry.ParseTermEntry, GraphOf, Removable, Replay, GraphLog, Shrinks, Tombstones, AllTook, BareLog,
        Settled, Print, Cleared;
      ok, n := true, 0;
      EntriesParse(name);
      var entry := TermEntry.ParseTermEntry(name);
      if entry.None? {
        return;
      }
      var g := GraphOf(name, entry.value);
      ok := budget.Spend();
      if !ok {
        return;
      }
      var meta := Head(g.Terminal());
      if meta.None? {
        ok := budget.Spend();
        if ok && g.Index().Some? {
          if g.Index().value in o {
            EntryIsRemovable(o, objects, shardOf, lim, g);
          }
          Remove(g.Index().value, shardOf, o, lim);
          if old(Thorough(o, lim.terminal)) {
            OrderlyPrune(o, old(objects), objects, lim.terminal, g);
          }
        } else if ok {
          if g.Terminal() in o {
            TerminalWasOld(o, objects, shardOf, lim, g);
          }
          DeleteStray(name);
        }
        return;
      }
      if meta.value >= lim.terminal {
        if old(Thorough(o, lim.terminal)) && g.Index().Some? {
          WithinRetention(o, objects, lim.terminal, g);
        }
        return;
      }
      ok := DeleteTerminalGraph(g, name, budget);
      OnlyLess(old(objects), objects, g);
      JustifiedAfterGraph(o, old(objects), objects, shardOf, lim, g);
      if old(Effective(o)) {
        SinceTook(log, |old(log)|);
        TombstonesAfterGraph(o, old(objects), log[|old(log)|..], g);
      }
      if ok && old(Thorough(o, lim.terminal)) {
        OrderlyAfterGraph(o, old(objects), objects, lim.terminal, g);
      }
      n := if ok then 1 else 0;
    }

    /** Terminal graphs past retention, by their index entries. */
    method CollectGraphs(shardOf: Bytes16 -> u16, lim: Limits, ghost o: Objects, budget: OpBudget)
      returns (ok: bool, n: nat)
      requires Sound(o, shardOf, lim)
      modifies this`objects, this`strays, this`takes, this`log, this`pages, budget
      ensures !ok ==> budget.ops == 0
      ensures StraysKept(o, old(strays), strays, lim)
      ensures Sound(o, shardOf, lim) && (old(Effective(o)) ==> Effective(o))
      ensures objects.Keys <= old(objects).Keys
      ensures ok && old(Thorough(o, lim.terminal)) ==>
                && Thorough(o, lim.terminal)
                && forall k :: k in o && k.TermIndex? ==> Settled(o, objects, lim.terminal, k)
    {
      hide Removable, Replay, Tombstones, AllTook, Settled, Print, Cleared, StraysKept;
      n := 0;
      StraysAll(o, strays, lim);
      var more, seen: set<Key> := true, {};
      while more
        invariant Sound(o, shardOf, lim) && (old(Effective(o)) ==> Effective(o))
        invariant objects.Keys <= old(objects).Keys && StraysKept(o, old(strays), strays, lim)
        invariant old(Thorough(o, lim.terminal)) ==>
                    Thorough(o, lim.terminal) && forall k :: k in seen ==> Settled(o, objects, lim.terminal, k)
        invariant old(Thorough(o, lim.terminal)) && !more ==>
                    forall k :: k in o && k.TermIndex? ==> Settled(o, objects, lim.terminal, k)
        decreases budget.ops, more
      {
        ok := budget.Spend();
        if !ok {
          return;
        }
        var names, keys;
        names, more, keys := ListIndex(seen);
        if names == [] {
          break;
        }
        seen := seen + keys;
        ghost var listed, before := objects, strays;
        ok, n := CollectPage(names, n, shardOf, lim, o, budget);
        StraysOn(o, old(strays), before, strays, lim);
        if !ok {
          return;
        }
        if old(Thorough(o, lim.terminal)) {
          PageSettles(o, listed, objects, lim.terminal, seen, keys, names);
        }
      }
      ok := true;
    }

    /** The entries of one page. */
    method CollectPage(names: seq<Name>, found: nat, shardOf: Bytes16 -> u16, lim: Limits, ghost o: Objects,
                       budget: OpBudget)
      returns (ok: bool, n: nat)
      requires Sound(o, shardOf, lim)
      modifies this`objects, this`strays, this`takes, this`log, this`pages, budget
      ensures !ok ==> budget.ops == 0
      ensures StraysKept(o, old(strays), strays, lim)
      ensures Sound(o, shardOf, lim) && (old(Effective(o)) ==> Effective(o))
      ensures budget.ops <= old(budget.ops) && objects.Keys <= old(objects).Keys
      ensures ok && old(Thorough(o, lim.terminal)) ==>
                && Thorough(o, lim.terminal)
                && forall k: Key :: k.TermIndex? && Print(k) in names ==> Settled(o, objects, lim.terminal, k)
    {
      hide Removable, Replay, Tombstones, AllTook, Settled, Print, Cleared, Orderly, StraysKept;
      ok, n := true, found;
      StraysAll(o, strays, lim);
      for i := 0 to |names|
        invariant ok && Sound(o, shardOf, lim) && (old(Effective(o)) ==> Effective(o))
        invariant budget.ops <= old(budget.ops) && objects.Keys <= old(objects).Keys
        invariant StraysKept(o, old(strays), strays, lim)
        invariant old(Thorough(o, lim.terminal)) ==>
                    && Thorough(o, lim.terminal)
                    && forall k: Key :: k.TermIndex? && Print(k) in names[..i] ==> Settled(o, objects, lim.terminal, k)
      {
        ghost var before, held := objects, strays;
        var done;
        ok, done := CollectEntry(names[i], shardOf, lim, o, budget);
        n := n + done;
        StraysOn(o, old(strays), held, strays, lim);
        if !ok {
          return;
        }
        assert names[..i + 1] == names[..i] + [names[i]];
        if old(Thorough(o, lim.terminal)) {
          forall k: Key | k.TermIndex? && Print(k) in names[..i + 1] ensures Settled(o, objects, lim.terminal, k) {
            if Print(k) in names[..i] {
              SettledStays(o, before, objects, lim.terminal, k);
            }
          }
        }
      }
    }

    /** One sequential pass with any budget, whichever deletes take effect: only what is removable
        goes, so nothing of a job whose record exists and that has no terminal record, or none older
        than the retention. Where deletes take effect, a job record left at the cut has every terminal
        record it had. Where listings are complete as well, a pass that ends has removed everything it
        is for. */
    method Collect(shardOf: Bytes16 -> u16, now: nat, retention: nat, orphanHorizon: nat, budget: OpBudget)
      returns (ok: bool, report: Report)
      requires Valid()
      modifies this`objects, this`strays, this`takes, this`log, this`pages, budget
      ensures !ok ==> budget.ops == 0
      ensures StraysKept(old(objects), old(strays), strays,
                         Limits(Before(now, retention), Before(now, orphanHorizon), Before(now, BEACON_HORIZON)))
      ensures Valid()
      ensures forall k :: k in objects ==> k in old(objects) && objects[k] == old(objects)[k]
      ensures forall k :: k in old(objects) && k !in objects ==>
                Removable(old(objects), k, shardOf,
                          Limits(Before(now, retention), Before(now, orphanHorizon), Before(now, BEACON_HORIZON)))
      ensures Sharded(old(objects), shardOf) ==> Keeps(old(objects), objects, shardOf, Before(now, retention))
      ensures old(Lossless()) ==> Tombstones(old(objects), objects)
      ensures ok && exact && old(Lossless()) ==>
                Complete(old(objects), objects, shardOf,
                         Limits(Before(now, retention), Before(now, orphanHorizon), Before(now, BEACON_HORIZON)))
    {
      hide Keeps, Sharded, Replay, Tombstones, AllTook, Orderly, Settled, Due, Removable;
      var lim := Limits(Before(now, retention), Before(now, orphanHorizon), Before(now, BEACON_HORIZON));
      ghost var o := objects;
      JustifiedAll(o, shardOf, lim);
      TombstonesAll(o);
      OrderlyAll(o, lim.terminal);
      ok, report := CollectAll(shardOf, lim, o, budget);
      if Sharded(o, shardOf) {
        JustifiedKeeps(o, objects, shardOf, lim);
      }
    }

    method CollectAll(shardOf: Bytes16 -> u16, lim: Limits, ghost o: Objects, budget: OpBudget)
      returns (ok: bool, report: Report)
      requires Sound(o, shardOf, lim)
      modifies this`objects, this`strays, this`takes, this`log, this`pages, budget
      ensures !ok ==> budget.ops == 0
      ensures StraysKept(o, old(strays), strays, lim)
      ensures Sound(o, shardOf, lim) && (old(Effective(o)) ==> Effective(o))
      ensures ok && old(Thorough(o, lim.terminal)) ==> Complete(o, objects, shardOf, lim)
    {
      hide Replay, Tombstones, AllTook, Orderly, Settled, Due, Removable;
      report := Report(0, 0, 0, 0);
      var n;
      ok, n := CollectOrphans(true, shardOf, lim, o, budget);
      report := report.(orphans := n);
      if !ok {
        return;
      }
      ok, n := CollectOrphans(false, shardOf, lim, o, budget);
      report := report.(claimOrphans := n);
      if !ok {
        return;
      }
      ok, n := CollectBeacons(shardOf, lim, o, budget);
      report := report.(beacons := n);
      if !ok {
        return;
      }
      ok, n := CollectGraphs(shardOf, lim, o, budget);
      report := report.(jobs := n);
    }
  }

  /** Items listed carry the times they had at the start. */
  lemma Listings(o: Objects, now: Objects, items: seq<Item>, shardOf: Bytes16 -> u16, lim: Limits)
    requires Justified(o, now, shardOf, lim)
    requires forall i :: 0 <= i < |items| ==> items[i].key in now && items[i].time == now[items[i].key]
    ensures forall i :: 0 <= i < |items| ==> items[i].key in o && items[i].time == o[items[i].key]
  {}

  lemma BeaconIsRemovable(o: Objects, k: Key, shardOf: Bytes16 -> u16, lim: Limits)
    requires k.Beacon? && k in o && o[k] < lim.beacon
    ensures Removable(o, k, shardOf, lim)
  {}

  lemma WithinRetention(o: Objects, now: Objects, cutoff: nat, g: Graph)
    requires Orderly(o, now, cutoff) && g.Index().Some? && g.Terminal() in now && now[g.Terminal()] >= cutoff
    ensures Settled(o, now, cutoff, g.Index().value)
  {}

  /** After a page of the index, every entry listed so far is settled, and so is one no longer
      stored. */
  lemma PageSettles(o: Objects, listed: Objects, now: Objects, cutoff: nat, seen: set<Key>, keys: set<Key>,
                    names: seq<Name>)
    requires now.Keys <= listed.Keys && forall k :: k in keys ==> k.TermIndex? && Print(k) in names
    requires forall k :: k in seen && k !in keys ==> Settled(o, listed, cutoff, k)
    requires forall k: Key :: k.TermIndex? && Print(k) in names ==> Settled(o, now, cutoff, k)
    ensures forall k :: k in seen ==> Settled(o, now, cutoff, k)
  {
    hide Settled, Print;
    forall k | k in seen ensures Settled(o, now, cutoff, k) {
      if k !in keys {
        SettledStays(o, listed, now, cutoff, k);
      }
    }
  }

  /** The graph an entry names. */
  function GraphOf(name: Name, e: TermEntry.Entry): (g: Graph)
    ensures g.kind == e.kind && g.shard == e.shard && g.id == e.id
  {
    var k := Parse(name);
    Graph(if k.Some? && k.value.TermIndex? then Some(k.value.bucket) else None, e.kind, e.shard, e.id)
  }

  /** An entry of the grammar names the graph its key says, and is that graph's own index entry. */
  lemma EntryNamesItsGraph(bucket: u64, kind: TermKind, shard: u16, id: Bytes16)
    ensures var name := Print(TermIndex(bucket, kind, shard, id));
            && TermEntry.ParseTermEntry(name) == Some(TermEntry.Entry(kind, shard, id))
            && GraphOf(name, TermEntry.Entry(kind, shard, id)).Index() == Some(TermIndex(bucket, kind, shard, id))
  {
    hide Parse, TermEntry.ParseTermEntry;
    ParseInvertsPrint(TermIndex(bucket, kind, shard, id));
    TermEntry.TermEntryParses(bucket, kind, shard, id);
  }

  lemma EntriesParse(name: Name)
    ensures forall k: Key :: k.TermIndex? && name == Print(k) ==>
              && var e := TermEntry.ParseTermEntry(name);
              && e.Some? && GraphOf(name, e.value).Index() == Some(k)
  {
    hide Print, TermEntry.ParseTermEntry, GraphOf;
    forall k: Key | k.TermIndex? && name == Print(k)
      ensures var e := TermEntry.ParseTermEntry(name);
              e.Some? && GraphOf(name, e.value).Index() == Some(k)
    {
      EntryNamesItsGraph(k.bucket, k.kind, k.shard, k.jobId);
    }
  }

  lemma SinceTook(log: seq<Deletion>, n: nat)
    requires n <= |log| && AllTook(log)
    ensures AllTook(log[n..])
  {}

  lemma TombstonesAll(o: Objects)
    ensures Tombstones(o, o)
  {}

  lemma NothingDeleted(base: seq<Deletion>, g: Graph)
    ensures Upto(base[|base|..], 0, g)
  {}

  lemma GoneOf(before: Objects, after: Objects, key: Key, g: Graph)
    requires (key == g.JobKey() || key == g.Terminal()) && (after == before || after == before - {key})
    ensures Shrinks(before, after, g)
  {
    StagesOf(g);
  }

  lemma StagesOf(g: Graph)
    ensures forall k :: Under(LeasesOf(g.shard, g.id), k) || Under(DelayedOf(g.shard, g.id), k) ==> Stage(k, g) == 0
    ensures forall k :: Under(FailsOf(g.shard, g.id), k) ==> Stage(k, g) == 3
    ensures forall k :: Under(ClaimsOf(g.shard, g.id), k) ==> Stage(k, g) == 4
    ensures forall k :: Under(PayloadsOf(g.id), k) ==> Stage(k, g) == 5
    ensures g.Index().Some? ==> Stage(g.Index().value, g) == 1
    ensures Stage(Tail(g.shard, g.id), g) == 2 && Stage(g.JobKey(), g) == 6 && Stage(g.Terminal(), g) == 7
  {}

  lemma Unshrunk(objects: Objects, g: Graph)
    ensures Shrinks(objects, objects, g)
  {}

  // ---------- A lost delete ----------

  lemma BareReplay(objects: Objects, g: Graph, takes: seq<bool>)
    requires g.Index().Some?
    ensures var after := Replay(objects, BareLog(g, takes));
            && (g.JobKey() in after <==> g.JobKey() in objects && !Fate(takes, 2))
            && (g.Terminal() in after <==> g.Terminal() in objects && !Fate(takes, 3))
  {
    var log := BareLog(g, takes);
    ReplayHolds(objects, log, g.JobKey());
    ReplayHolds(objects, log, g.Terminal());
    assert log[2] == Deletion(g.JobKey(), Fate(takes, 2)) && log[3] == Deletion(g.Terminal(), Fate(takes, 3));
  }

  /** Deleting the graph of a job with no chain left, where only the third delete call, the job
      record's, is lost: the job record stays and its terminal record goes. */
  method LostDeleteStrandsJob(g: Graph) returns (c: Collector)
    requires g.Index().Some?
    ensures c.start == map[g.Index().value := 3, g.JobKey() := 1, g.Terminal() := 2]
    ensures g.JobKey() in c.objects && g.Terminal() !in c.objects
  {
    hide GraphLog, Replay, BareLog;
    var objects: Objects := map[g.Index().value := 3, g.JobKey() := 1, g.Terminal() := 2];
    c := new Collector(objects, {}, [], [true, true, false, true], false);
    var budget := new OpBudget(9);
    var _ := c.DeleteTerminalGraph(g, Print(g.Index().value), budget);
    BareReplay(objects, g, [true, true, false, true]);
  }
}
