/** The repair scan's full-chain audit. A quiescent chain audits clean exactly when it is whole and
    every link is admissible, so every chain the protocol can build audits clean. */
module Audit {
  import opened Wrappers
  import opened Protocol
  import opened ProtocolInvariant
  import opened ProtocolRuns
  import opened ProtocolTheorems

  /** One listed generation of a chain. */
  datatype Entry = Entry(generation: nat, time: nat)

  /** What reading a listed generation gave. `Gone` is a generation deleted since the listing. */
  datatype Fetched = Decoded(claim: ClaimRecord) | Corrupt | Gone

  datatype Finding =
    | ChainGap(missing: nat)
    | HeadGap(first: nat)
    | RecordCorrupt(generation: nat)
    | Inadmissible(generation: nat)

  // ---------- What a chain should be ----------

  /** The evidence of a generation against its predecessor: a continuation shows custody, a
      takeover names the predecessor's own time and lease, over by the floor it observed. */
  predicate Admissible(prev: ClaimRecord, prevTime: nat, c: ClaimRecord) {
    if c.continuation then
      c.workerId == prev.workerId && c.prevToken == Some(prev.token)
    else
      && c.basis.Some?
      && c.basis.value.prevTime == prevTime
      && c.basis.value.prevDuration == prev.lease
      && Saturate(c.basis.value.prevTime + c.basis.value.prevDuration) <= c.basis.value.floor
  }

  predicate AdmissibleAt(chain: seq<Entry>, fetched: seq<Fetched>, i: nat)
    requires 0 < i < |chain| == |fetched|
  {
    fetched[i].Decoded? && fetched[i - 1].Decoded? ==>
      Admissible(fetched[i - 1].claim, chain[i - 1].time, fetched[i].claim)
  }

  /** Generations 1..n, all readable, every link admissible. */
  predicate Whole(chain: seq<Entry>, fetched: seq<Fetched>)
    requires |chain| == |fetched|
  {
    && (forall i :: 0 <= i < |chain| ==> chain[i].generation == i + 1)
    && (forall i :: 0 <= i < |chain| ==> fetched[i].Decoded?)
    && (forall i :: 0 < i < |chain| ==> AdmissibleAt(chain, fetched, i))
  }

  /** The findings a chain deserves. */
  ghost predicate Deserved(chain: seq<Entry>, fetched: seq<Fetched>, f: Finding)
    requires |chain| == |fetched|
  {
    match f
    case ChainGap(m) =>
      exists i :: && 0 < i < |chain| && chain[i].generation != chain[i - 1].generation + 1
                  && m == chain[i - 1].generation + 1
    case HeadGap(g) => chain != [] && chain[0].generation == g && g != 1
    case RecordCorrupt(g) => exists i :: 0 <= i < |chain| && fetched[i].Corrupt? && g == chain[i].generation
    case Inadmissible(g) => exists i :: 0 < i < |chain| && !AdmissibleAt(chain, fetched, i) && g == chain[i].generation
  }

  // ---------- The audit ----------

  /** Generations that do not follow their predecessor, and a first one that is not 1. */
  method AuditGenerations(chain: seq<Entry>) returns (findings: seq<Finding>)
    requires chain != []
    ensures forall f :: f in findings <==>
              || (f.ChainGap? && GapBefore(chain, |chain|, f.missing))
              || (f.HeadGap? && chain[0].generation == f.first != 1)
  {
    findings := [];
    for i := 1 to |chain|
      invariant forall f :: f in findings <==> f.ChainGap? && GapBefore(chain, i, f.missing)
    {
      if chain[i].generation != chain[i - 1].generation + 1 {
        findings := findings + [ChainGap(chain[i - 1].generation + 1)];
      }
    }
    if chain[0].generation != 1 {
      findings := findings + [HeadGap(chain[0].generation)];
    }
  }

  /** The decoded records, aligned with the chain, and the ones that do not decode. */
  method DecodeChain(chain: seq<Entry>, fetched: seq<Fetched>)
    returns (decoded: seq<Option<ClaimRecord>>, findings: seq<Finding>)
    requires |fetched| == |chain|
    ensures |decoded| == |chain|
    ensures forall k :: 0 <= k < |chain| ==> decoded[k] == if fetched[k].Decoded? then Some(fetched[k].claim) else None
    ensures forall f :: f in findings <==> f.RecordCorrupt? && CorruptBefore(chain, fetched, |chain|, f.generation)
  {
    decoded, findings := [], [];
    for i := 0 to |chain|
      invariant |decoded| == i
      invariant forall k :: 0 <= k < i ==> decoded[k] == if fetched[k].Decoded? then Some(fetched[k].claim) else None
      invariant forall f :: f in findings <==> f.RecordCorrupt? && CorruptBefore(chain, fetched, i, f.generation)
    {
      match fetched[i] {
        case Decoded(c) => decoded := decoded + [Some(c)];
        case Corrupt =>
          findings := findings + [RecordCorrupt(chain[i].generation)];
          decoded := decoded + [None];
        case Gone => decoded := decoded + [None];
      }
    }
  }

  /** The links whose evidence does not stand. */
  method AuditLinks(chain: seq<Entry>, ghost fetched: seq<Fetched>, decoded: seq<Option<ClaimRecord>>)
    returns (findings: seq<Finding>)
    requires |decoded| == |fetched| == |chain|
    requires forall k :: 0 <= k < |chain| ==> decoded[k] == if fetched[k].Decoded? then Some(fetched[k].claim) else None
    ensures forall f :: f in findings <==> f.Inadmissible? && InadmissibleBefore(chain, fetched, |chain|, f.generation)
  {
    findings := [];
    if chain == [] {
      return;
    }
    for i := 1 to |chain|
      invariant forall f :: f in findings <==> f.Inadmissible? && InadmissibleBefore(chain, fetched, i, f.generation)
    {
      if decoded[i].None? || decoded[i - 1].None? {
        continue;
      }
      var c, prev := decoded[i].value, decoded[i - 1].value;
      if c.continuation {
        if !(c.workerId == prev.workerId && c.prevToken == Some(prev.token)) {
          findings := findings + [Inadmissible(chain[i].generation)];
        }
      } else {
        if c.basis.None? {
          findings := findings + [Inadmissible(chain[i].generation)];
          continue;
        }
        var b := c.basis.value;
        if !(b.prevTime == chain[i - 1].time && b.prevDuration == prev.lease
             && Saturate(b.prevTime + b.prevDuration) <= b.floor) {
          findings := findings + [Inadmissible(chain[i].generation)];
        }
      }
    }
  }

  /** Reports exactly the deserved findings. */
  method AuditChain(chain: seq<Entry>, fetched: seq<Fetched>) returns (findings: seq<Finding>)
    requires chain != [] && |fetched| == |chain|
    ensures forall f :: f in findings <==> Deserved(chain, fetched, f)
  {
    var gaps := AuditGenerations(chain);
    var decoded, corrupt := DecodeChain(chain, fetched);
    var inadmissible := AuditLinks(chain, fetched, decoded);
    findings := gaps + corrupt + inadmissible;
  }

  ghost predicate GapBefore(chain: seq<Entry>, n: nat, m: nat)
    requires n <= |chain|
  {
    exists i :: 0 < i < n && chain[i].generation != chain[i - 1].generation + 1 && m == chain[i - 1].generation + 1
  }

  ghost predicate CorruptBefore(chain: seq<Entry>, fetched: seq<Fetched>, n: nat, g: nat)
    requires n <= |chain| == |fetched|
  {
    exists i :: 0 <= i < n && fetched[i].Corrupt? && g == chain[i].generation
  }

  ghost predicate InadmissibleBefore(chain: seq<Entry>, fetched: seq<Fetched>, n: nat, g: nat)
    requires n <= |chain| == |fetched|
  {
    exists i :: 0 < i < n && !AdmissibleAt(chain, fetched, i) && g == chain[i].generation
  }

  // ---------- When it reports nothing ----------

  lemma {:induction false} ContiguousFromOne(chain: seq<Entry>, i: nat)
    requires i < |chain| && chain[0].generation == 1
    requires forall k :: 0 < k < |chain| ==> chain[k].generation == chain[k - 1].generation + 1
    ensures chain[i].generation == i + 1
  {
    if i > 0 {
      ContiguousFromOne(chain, i - 1);
    }
  }

  /** Over a quiescent store, nothing is reported exactly when the chain is whole. */
  lemma CleanExactlyWhenWhole(chain: seq<Entry>, fetched: seq<Fetched>)
    requires chain != [] && |fetched| == |chain|
    requires forall i :: 0 <= i < |fetched| ==> !fetched[i].Gone?
    ensures (forall f :: !Deserved(chain, fetched, f)) <==> Whole(chain, fetched)
  {
    if forall f :: !Deserved(chain, fetched, f) {
      assert !Deserved(chain, fetched, HeadGap(chain[0].generation));
      forall i | 0 < i < |chain|
        ensures chain[i].generation == chain[i - 1].generation + 1 && AdmissibleAt(chain, fetched, i)
      {
        assert !Deserved(chain, fetched, ChainGap(chain[i - 1].generation + 1));
        assert !Deserved(chain, fetched, Inadmissible(chain[i].generation));
      }
      forall i | 0 <= i < |chain| ensures chain[i].generation == i + 1 && fetched[i].Decoded? {
        ContiguousFromOne(chain, i);
        assert !Deserved(chain, fetched, RecordCorrupt(chain[i].generation));
      }
    }
  }

  /** A link between two readable generations, in the records' own fields: unless it shows custody of
      its predecessor, or names the predecessor's own store time and lease, over by its floor, its
      generation is reported; where generations ascend, only then. */
  lemma BrokenLinkIsReported(chain: seq<Entry>, fetched: seq<Fetched>, i: nat)
    requires 0 < i < |chain| == |fetched| && fetched[i].Decoded? && fetched[i - 1].Decoded?
    requires forall k, l :: 0 <= k < l < |chain| ==> chain[k].generation < chain[l].generation
    ensures var c, p, time := fetched[i].claim, fetched[i - 1].claim, chain[i - 1].time;
            Deserved(chain, fetched, Inadmissible(chain[i].generation))
            <==> if c.continuation then c.workerId != p.workerId || c.prevToken != Some(p.token)
                 else || c.basis.None? || c.basis.value.prevTime != time || c.basis.value.prevDuration != p.lease
                      || c.basis.value.floor < Saturate(time + p.lease)
  {
    var g := chain[i].generation;
    if Deserved(chain, fetched, Inadmissible(g)) {
      var k :| 0 < k < |chain| && !AdmissibleAt(chain, fetched, k) && g == chain[k].generation;
      assert k == i;
    }
  }

  /** So nothing is reported exactly when the chain is generations 1..n, all readable, each a
      continuation with custody or a takeover of a lease that was over. */
  lemma SilenceExactly(chain: seq<Entry>, fetched: seq<Fetched>)
    requires chain != [] && |fetched| == |chain|
    requires forall i :: 0 <= i < |fetched| ==> !fetched[i].Gone?
    ensures (forall f :: !Deserved(chain, fetched, f))
       <==> && (forall i :: 0 <= i < |chain| ==> fetched[i].Decoded? && chain[i].generation == i + 1)
            && forall i :: 0 < i < |chain| ==>
                 var c, p, time := fetched[i].claim, fetched[i - 1].claim, chain[i - 1].time;
                 || (c.continuation && c.workerId == p.workerId && c.prevToken == Some(p.token))
                 || (!c.continuation && c.basis.Some?
                     && c.basis.value == Basis(time, p.lease, c.basis.value.floor)
                     && Saturate(time + p.lease) <= c.basis.value.floor)
  {
    hide Deserved, Admissible;
    CleanExactlyWhenWhole(chain, fetched);
    forall i | 0 < i < |chain| && fetched[i].Decoded? && fetched[i - 1].Decoded?
      ensures var c, p, time := fetched[i].claim, fetched[i - 1].claim, chain[i - 1].time;
              AdmissibleAt(chain, fetched, i)
              <==> || (c.continuation && c.workerId == p.workerId && c.prevToken == Some(p.token))
                   || (!c.continuation && c.basis.Some?
                       && c.basis.value == Basis(time, p.lease, c.basis.value.floor)
                       && Saturate(time + p.lease) <= c.basis.value.floor)
    {
      LinkExactly(fetched[i - 1].claim, chain[i - 1].time, fetched[i].claim);
    }
  }

  lemma LinkExactly(p: ClaimRecord, time: nat, c: ClaimRecord)
    ensures Admissible(p, time, c)
       <==> || (c.continuation && c.workerId == p.workerId && c.prevToken == Some(p.token))
            || (!c.continuation && c.basis.Some?
                && c.basis.value == Basis(time, p.lease, c.basis.value.floor)
                && Saturate(time + p.lease) <= c.basis.value.floor)
  {}

  // ---------- Honest chains ----------

  ghost function ChainOf(store: Store, j: JobId, n: nat): seq<Entry>
    requires forall i :: 1 <= i <= n ==> ClaimAt(store, j, i)
  {
    seq(n, i requires 0 <= i < n => Entry(i + 1, TimeOf(store, j, i + 1)))
  }

  ghost function RecordsOf(store: Store, j: JobId, n: nat): seq<Fetched>
    requires forall i :: 1 <= i <= n ==> ClaimAt(store, j, i)
  {
    seq(n, i requires 0 <= i < n => Decoded(ClaimOf(store, j, i + 1)))
  }

  lemma LinkIsAdmissible(cfg: Config, s: State, j: JobId, g: nat)
    requires ChainsOk(cfg, s) && g > 1 && ClaimKey(j, g) in s.store
    ensures ClaimAt(s.store, j, g) && ClaimAt(s.store, j, g - 1)
    ensures Admissible(ClaimOf(s.store, j, g - 1), TimeOf(s.store, j, g - 1), ClaimOf(s.store, j, g))
  {
    assert GoodClaim(cfg, s, j, g);
  }

  /** In every run, every chain the protocol built audits clean. */
  lemma HonestChainsAuditClean(cfg: Config, states: seq<State>, k: nat, j: JobId, n: nat)
    requires Run(cfg, states) && k < |states| && n > 0 && ClaimKey(j, n) in states[k].store
    ensures forall i :: 1 <= i <= n ==> ClaimAt(states[k].store, j, i)
    ensures Whole(ChainOf(states[k].store, j, n), RecordsOf(states[k].store, j, n))
    ensures forall f :: !Deserved(ChainOf(states[k].store, j, n), RecordsOf(states[k].store, j, n), f)
  {
    var s := states[k];
    ChainInvariant(cfg, states, k, j, n);
    RunKeepsInv(cfg, states, k);
    var chain, records := ChainOf(s.store, j, n), RecordsOf(s.store, j, n);
    forall i | 0 < i < n ensures AdmissibleAt(chain, records, i) {
      assert ClaimAt(s.store, j, i + 1);
      LinkIsAdmissible(cfg, s, j, i + 1);
    }
    CleanExactlyWhenWhole(chain, records);
  }
}
