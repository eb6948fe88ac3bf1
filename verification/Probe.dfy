/** One claim probe against an adversarial store: every reply is arbitrary, each store call counts
    one and each operation spent is a unit of the caller's budget. Whatever the store answers, no
    more calls are made than were paid for; a claim is committed and reported only behind every gate
    that the replies show passed, and a probe that ends otherwise has a reason in them. */
module Probe {
  import opened Wrappers
  import opened Bytes
  import opened Backoff
  import opened Budget
  import opened Keys
  import opened Listing
  import opened TailDiscovery
  import opened Records
  import opened ProbeTrace
  import Resolver

  /** A pass ends the probe, or asks for evidence from the listing. */
  datatype Pass = Done(claim: Option<Handle>) | Relist

  const RETRY_TRANSPORT_MAX: nat := 4

  /** The last key of a page that parses, and what was held when none does. */
  method ReadPage(items: seq<Name>, times: Name -> u64, held: ChainEnd, ghost tail: Option<Name>)
    returns (end: ChainEnd, ghost key: Option<Name>)
    ensures key == LastParsing(items, tail)
    ensures match LastParsing(items, None)
            case None => end == held && LastParsing(items, tail) == tail
            case Some(k) =>
              k in items && end == ChainEnd(GenerationRead(Some(k)), times(k)) && LastParsing(items, tail) == Some(k)
  {
    hide ParseGeneration;
    end, key := held, tail;
    for i := 0 to |items|
      invariant key == LastParsing(items[..i], tail)
      invariant match LastParsing(items[..i], None)
                case None => end == held && key == tail
                case Some(k) =>
                  k in items && key == Some(k) && end.generation == GenerationRead(key) && end.time == times(k)
    {
      assert items[..i + 1][..i] == items[..i];
      var g := ParseGeneration(items[i]);
      if g.Some? {
        GenerationFits(items[i]);
        end, key := ChainEnd(g.value, times(items[i])), Some(items[i]);
      }
    }
    assert items[..|items|] == items;
  }

  /** The store as one handle meets it. */
  class World {
    var replies: seq<Reply>
    /** The store calls made, the operations spent, and the records committed by resolved puts. */
    ghost var calls: nat
    ghost var spent: nat
    ghost var committed: set<(Key, Record)>
    /** The exchanges, in order. */
    ghost var trace: seq<Event>
    /** The jobs probed, those whose probes reported a claim, and how many probes failed. */
    ghost var probed: seq<Name>
    ghost var reported: seq<Name>
    ghost var failures: nat

    ghost predicate Valid()
      reads this
    {
      forall i :: 0 <= i < |replies| && replies[i].Stored? ==> Ascending(replies[i].keys)
    }

    constructor (replies: seq<Reply>)
      requires forall i :: 0 <= i < |replies| && replies[i].Stored? ==> Ascending(replies[i].keys)
      ensures Valid() && calls == 0 && spent == 0 && committed == {} && trace == []
      ensures probed == [] && reported == [] && failures == 0
    {
      this.replies := replies;
      calls, spent, committed, trace, probed, reported, failures := 0, 0, {}, [], [], [], 0;
    }

    /** Every operation spent left the budget, every call was paid for by one of them, and exchanges
        stay on record. */
    twostate predicate Paid(budget: OpBudget)
      reads this, budget
    {
      && spent + budget.ops == old(spent) + old(budget.ops)
      && 0 <= calls - old(calls) <= spent - old(spent)
      && old(trace) <= trace
    }

    twostate predicate Silent()
      reads this
    {
      probed == old(probed) && reported == old(reported) && failures == old(failures)
    }

    twostate predicate Quiet()
      reads this
    {
      committed == old(committed) && Silent()
    }

    method Pay(budget: OpBudget) returns (ok: bool)
      requires Valid()
      modifies this, budget
      ensures Valid() && Paid(budget) && Quiet() && calls == old(calls) && trace == old(trace)
      ensures ok == (old(budget.ops) > 0) && spent == if ok then old(spent) + 1 else old(spent)
    {
      ok := budget.Spend();
      if ok {
        spent := spent + 1;
      }
    }

    /** One store call. */
    method Call(request: Request) returns (reply: Reply)
      requires Valid()
      modifies this
      ensures Valid() && Quiet() && calls == old(calls) + 1 && spent == old(spent)
      ensures trace == old(trace) + [Asked(request, reply)]
      ensures reply.Stored? ==> Ascending(reply.keys)
    {
      calls := calls + 1;
      reply := Failed;
      if |replies| > 0 {
        reply := replies[0];
        replies := replies[1..];
      }
      trace := trace + [Asked(request, reply)];
    }

    /** A call paid for first; none when the budget is dry. */
    method PaidCall(request: Request, budget: OpBudget) returns (reply: Option<Reply>)
      requires Valid()
      modifies this, budget
      ensures Valid() && Paid(budget) && Quiet() && spent - old(spent) == calls - old(calls)
      ensures reply.None? <==> old(budget.ops) == 0
      ensures reply.None? ==> calls == old(calls) && trace == old(trace) && budget.ops == 0
      ensures reply.Some? ==> calls == old(calls) + 1 && trace == old(trace) + [Asked(request, reply.value)]
      ensures reply.Some? && reply.value.Stored? ==> Ascending(reply.value.keys)
    {
      var ok := Pay(budget);
      if !ok {
        return None;
      }
      var answer := Call(request);
      return Some(answer);
    }

    /** The conditional write with its resolution, on the key as the environment presents it. */
    method Put(s: Setup, key: Key, intended: Record, budget: OpBudget) returns (r: Result<Resolver.Resolved>)
      requires Valid()
      modifies this, budget
      ensures Valid() && Paid(budget) && Silent()
      ensures r.Ok? ==> !r.value.NotCommitted?
      ensures r == Err(BudgetExhausted) ==> budget.ops == 0
      ensures trace == old(trace) + [Wrote(key, intended, if r.Ok? then Some(r.value) else None)]
      ensures committed == if r == Ok(Resolver.Committed) then old(committed) + {(key, intended)} else old(committed)
    {
      hide ValueEncode, ValueDecode, WellFormed;
      var channel := new Resolver.Channel(None, []);
      if |replies| > 0 {
        if replies[0].Contested? {
          channel := new Resolver.Channel(replies[0].held, replies[0].turns);
        }
        replies := replies[1..];
      }
      var resolved := channel.PutResolving(s.sha, intended, s.queueId, s.tag(key), budget);
      calls, spent := calls + channel.calls, spent + channel.calls;
      match resolved {
        case Ok(v) =>
          r := Ok(v);
          if v.Committed? {
            committed := committed + {(key, intended)};
          }
        case Err(e) => r := Err(if e.BudgetExhausted? then BudgetExhausted else Broken);
      }
      trace := trace + [Wrote(key, intended, if r.Ok? then Some(r.value) else None)];
    }

    // ---------- The tail ----------

    /** Pages through the claims prefix and keeps the last generation read. */
    method ListTail(prefix: Name, budget: OpBudget) returns (r: Result<ChainEnd>)
      requires Valid()
      modifies this, budget
      ensures Valid() && Paid(budget) && Quiet() && calls - old(calls) == |trace| - |old(trace)|
      ensures r.Ok? ==> ListsTail(prefix, trace[|old(trace)|..], r.value)
      ensures r == Err(BudgetExhausted) ==> budget.ops == 0
      ensures r == Err(Broken) ==> exists ev :: ev in trace[|old(trace)|..] && Unanswered(ev)
    {
      hide ParseGeneration, PageOf, Ascending, TailOver, HasRead, LastParsing, Kept, GenerationRead;
      var end := NO_CLAIM;
      var after: Option<Name> := None;
      ghost var key: Option<Name> := None;
      ghost var heard: seq<Event> := [];
      NothingRead(prefix);
      NothingKept();
      assert KeysOf([]) == [];
      while true
        invariant Valid() && Paid(budget) && Quiet() && calls == old(calls) + |heard| && trace == old(trace) + heard
        invariant HasRead(KeysOf(heard), prefix, after, key) && Kept(heard, key, end)
        invariant forall i :: 0 <= i < |heard| ==> Answered(heard[i], prefix)
        decreases budget.ops
      {
        var reply := PaidCall(ListOf(prefix), budget);
        if reply.None? {
          return Err(BudgetExhausted);
        }
        ghost var ev := Asked(ListOf(prefix), reply.value);
        assert trace[|old(trace)|..] == heard + [ev];
        if !reply.value.Stored? {
          assert ev in trace[|old(trace)|..] && Unanswered(ev);
          return Err(Broken);
        }
        var keys := reply.value.keys;
        var page := PageOf(keys, prefix, after, PAGE);
        PageRead(KeysOf(heard), keys, prefix, after, key);
        assert KeysOf(heard + [ev]) == KeysOf(heard) + [keys];
        ItemsAreKeys(keys, prefix, after, PAGE);
        ghost var held, tail := end, key;
        end, key := ReadPage(page.items, reply.value.times, end, key);
        KeptOn(heard, ev, page.items, held, tail, end);
        heard := heard + [ev];
        match page.next {
          case Some(k) => after := Some(k);
          case None => return Ok(end);
        }
      }
    }

    /** A generation's attempt and lease. */
    method TailRecord(s: Setup, shard: u16, id: Bytes16, tail: ChainEnd, budget: OpBudget) returns (r: Result<Evidence>)
      requires Valid()
      modifies this, budget
      ensures Valid() && Paid(budget) && Quiet() && (r.Ok? ==> r.value.tail == tail)
      ensures tail.generation == 0 ==> r == Ok(Evidence(tail, 0, 0)) && trace == old(trace)
      ensures r.Ok? && tail.generation > 0 ==>
                |trace| == |old(trace)| + 1 && ShownBy(s, shard, id, trace[|old(trace)|], r.value)
      ensures r == Err(BudgetExhausted) ==> budget.ops == 0
      ensures r == Err(Broken) ==> Troubled(s, trace[|old(trace)|..])
    {
      hide ValueDecode;
      if tail.generation == 0 {
        return Ok(Evidence(tail, 0, 0));
      }
      var key := Claim(shard, id, tail.generation);
      var reply := PaidCall(GetOf(key), budget);
      if reply.None? {
        return Err(BudgetExhausted);
      }
      assert Asked(GetOf(key), reply.value) in trace[|old(trace)|..];
      if !reply.value.Found? {
        return Err(Broken);
      }
      var found := ValueDecode(s.sha, reply.value.body, s.queueId, s.tag(key));
      if found.None? || !found.value.ClaimRecord? {
        return Err(Broken);
      }
      return Ok(Evidence(tail, found.value.attempt, found.value.leaseDuration));
    }

    /** The tail as the listing and its record show it. */
    method ListedEvidence(s: Setup, shard: u16, id: Bytes16, budget: OpBudget) returns (r: Result<Evidence>)
      requires Valid()
      modifies this, budget
      ensures Valid() && Paid(budget) && Quiet()
      ensures r.Ok? ==> Listed(s, shard, id, trace, |old(trace)|, r.value)
      ensures r == Err(BudgetExhausted) ==> budget.ops == 0
      ensures r == Err(Broken) ==> Troubled(s, trace[|old(trace)|..])
    {
      hide ListsTail, ShownBy, Unanswered;
      var tail := ListTail(ClaimsPrefix(shard, id), budget);
      if tail.Err? {
        if tail.error.Broken? {
          UnansweredTroubles(s, trace[|old(trace)|..]);
        }
        return Err(tail.error);
      }
      ghost var heard := trace;
      r := TailRecord(s, shard, id, tail.value, budget);
      if r.Ok? {
        RecordListed(s, shard, id, heard, trace, |old(trace)|, r.value);
      } else {
        SuffixIncludes(trace, |old(trace)|, |heard|);
      }
    }

    /** The advisory hint: absent, or a generation, 0 for a corrupt one. */
    method ReadHint(shard: u16, id: Bytes16, budget: OpBudget) returns (r: Result<Option<u32>>)
      requires Valid()
      modifies this, budget
      ensures Valid() && Paid(budget) && Quiet()
      ensures r != Err(BudgetExhausted) ==>
                && |trace| == |old(trace)| + 1
                && var ev := trace[|old(trace)|];
                && ev.Asked? && ev.request == GetOf(Tail(shard, id))
                && match ev.reply
                   case Missing => r == Ok(None)
                   case Found(_, body) =>
                     var g := FromBigEndian(body);
                     r == Ok(Some(if |body| == 8 && 1 <= g <= U32_MAX then g else 0))
                   case _ => r == Err(Broken)
      ensures r == Err(BudgetExhausted) ==> budget.ops == 0
    {
      var reply := PaidCall(GetOf(Tail(shard, id)), budget);
      if reply.None? {
        return Err(BudgetExhausted);
      }
      match reply.value {
        case Found(_, body) =>
          var g := FromBigEndian(body);
          return Ok(Some(if |body| == 8 && 1 <= g <= U32_MAX then g else 0));
        case Missing => return Ok(None);
        case _ => return Err(Broken);
      }
    }

    /** The tail branch of the gather: the hinted generation where the hint leads to a claim, and the
        listing, whose exchanges start at `from`, otherwise. `hint` is what the commit-time hint write
        goes by. Only an unanswered call breaks it. */
    method FindTail(s: Setup, shard: u16, id: Bytes16, budget: OpBudget)
      returns (r: Result<ChainEnd>, hint: Option<u32>, hinted: Option<Evidence>, ghost from: nat)
      requires Valid()
      modifies this, budget
      ensures Valid() && Paid(budget) && Quiet() && |old(trace)| <= from <= |trace|
      ensures hinted.Some? ==>
                && r == Ok(hinted.value.tail) && hint == Some(hinted.value.tail.generation)
                && HintedBy(s, shard, id, trace[from..], hinted.value)
      ensures r.Ok? && hinted.None? ==> ListsTail(ClaimsPrefix(shard, id), trace[from..], r.value)
      ensures r.Ok? && hinted.None? ==> hint.None? || hint == Some(0)
      ensures r.Ok? && !s.hints ==> hinted.None? && hint.None?
      ensures r == Err(BudgetExhausted) ==> budget.ops == 0
      ensures r == Err(Broken) ==> exists ev :: ev in trace[|old(trace)|..] && Unanswered(ev)
    {
      hide ValueDecode, ListsTail;
      hint, hinted, from := None, None, |trace|;
      if s.hints {
        var read := ReadHint(shard, id, budget);
        if read.Err? {
          assert read.error.Broken? ==> Unanswered(trace[|old(trace)|..][0]);
          return Err(read.error), hint, hinted, from;
        }
        hint := read.value;
        if hint.Some? && hint.value > 0 {
          var key := Claim(shard, id, hint.value);
          var reply := PaidCall(GetOf(key), budget);
          if reply.None? {
            return Err(BudgetExhausted), None, hinted, from;
          }
          match reply.value {
            case Found(time, body) =>
              var found := ValueDecode(s.sha, body, s.queueId, s.tag(key));
              if found.Some? && found.value.ClaimRecord? {
                var tail := ChainEnd(hint.value, time);
                hinted := Some(Evidence(tail, found.value.attempt, found.value.leaseDuration));
                return Ok(tail), hint, hinted, from;
              }
            case Missing =>
            case _ =>
              assert Unanswered(trace[|old(trace)|..][1]);
              return Err(Broken), None, hinted, from;
          }
          hint := Some(0);
        }
      }
      from := |trace|;
      r := ListTail(ClaimsPrefix(shard, id), budget);
      SuffixIncludes(trace, |old(trace)|, from);
    }

    // ---------- Advisory writes and floors ----------

    /** The best-effort hint write, skipped when the hint is current: the generation in eight bytes. */
    method WriteHint(s: Setup, shard: u16, id: Bytes16, generation: u32, hint: Option<u32>, budget: OpBudget)
      requires Valid()
      modifies this, budget
      ensures Valid() && Paid(budget) && Quiet()
      ensures if s.hints && (hint.Some? ==> hint.value < generation) && old(budget.ops) > 0
              then && |trace| == |old(trace)| + 1 && calls == old(calls) + 1 && trace[|old(trace)|].Asked?
                   && trace[|old(trace)|].request == Write(Tail(shard, id), BigEndian(generation, 8))
              else trace == old(trace) && calls == old(calls)
    {
      if !s.hints || (hint.Some? && hint.value >= generation) {
        return;
      }
      var _ := PaidCall(Write(Tail(shard, id), BigEndian(generation, 8)), budget);
    }

    /** A read retried while it fails in transport; `None` for a missing key. */
    method ReadRetrying(key: Key, budget: OpBudget) returns (r: Result<Option<seq<byte>>>)
      requires Valid()
      modifies this, budget
      ensures Valid() && Paid(budget) && Quiet()
      ensures r.Ok? ==> |trace| > |old(trace)| && Answers(trace[|trace| - 1], key, r.value)
    {
      for retries := 0 to RETRY_TRANSPORT_MAX + 1
        invariant Valid() && Paid(budget) && Quiet()
      {
        var reply := PaidCall(GetOf(key), budget);
        if reply.None? {
          return Err(BudgetExhausted);
        }
        match reply.value {
          case Found(_, body) => return Ok(Some(body));
          case Missing => return Ok(None);
          case Failed =>
          case _ => return Err(Broken);
        }
      }
      return Err(Broken);
    }

    /** A beacon's store time, on a fresh nonce after every unknown or rejected put. */
    method PutBeacon(s: Setup, budget: OpBudget) returns (r: Result<u64>)
      requires Valid()
      modifies this, budget
      ensures Valid() && Paid(budget) && Quiet()
      ensures r.Ok? ==> |trace| >= |old(trace)| + 2 && BeaconRead(s, trace[|trace| - 2], trace[|trace| - 1], r.value)
    {
      for i := 0 to RETRY_TRANSPORT_MAX + 1
        invariant Valid() && Paid(budget) && Quiet()
      {
        var key := Beacon(s.nonces(i));
        var put := PaidCall(Write(key, []), budget);
        if put.None? {
          return Err(BudgetExhausted);
        }
        match put.value {
          case Found(_, _) =>
            var meta := PaidCall(HeadOf(key), budget);
            if meta.None? {
              return Err(BudgetExhausted);
            }
            if !meta.value.Found? {
              return Err(Broken);
            }
            assert BeaconRead(s, trace[|trace| - 2], trace[|trace| - 1], meta.value.time);
            return Ok(meta.value.time);
          case Missing =>
          case Failed =>
          case _ => return Err(Broken);
        }
      }
      return Err(Broken);
    }

    /** The cached floor, or a beacon's store time checked against the watermark and raised to it. */
    method EstablishFloor(s: Setup, budget: OpBudget) returns (r: Result<u64>)
      requires Valid()
      modifies this, budget
      ensures Valid() && Paid(budget) && Quiet()
      ensures s.cached.Some? ==> r == Ok(s.cached.value) && calls == old(calls) && trace == old(trace)
      ensures s.cached.None? && r.Ok? ==> FloorShown(s, trace[|old(trace)|..], r.value)
    {
      hide ValueDecode;
      if s.cached.Some? {
        return Ok(s.cached.value);
      }
      var beacon := PutBeacon(s, budget);
      if beacon.Err? {
        return beacon;
      }
      if beacon.value == 0 {
        return Err(Broken);
      }
      ghost var n := |trace| - |old(trace)|;
      var body := ReadRetrying(Watermark, budget);
      if body.Err? {
        return Err(body.error);
      }
      ghost var heard := trace[|old(trace)|..];
      assert BeaconRead(s, heard[n - 2], heard[n - 1], beacon.value);
      assert Answers(heard[|heard| - 1], Watermark, body.value);
      if body.value.None? {
        assert FloorFrom(s, beacon.value, body.value, beacon.value);
        return beacon;
      }
      var w := ValueDecode(s.sha, body.value.value, s.queueId, s.tag(Watermark));
      if w.None? || !w.value.WatermarkRecord? {
        return Err(Broken);
      }
      if Saturate(beacon.value + s.skew) < Saturate(w.value.highestBucket * s.delayedWidth) {
        return Err(Broken);
      }
      var raised := EffectiveFloor(beacon.value, w.value.highestBucket, s.delayedWidth);
      if raised.None? || raised.value >= U64 {
        return Err(Broken);
      }
      assert FloorFrom(s, beacon.value, body.value, raised.value);
      return Ok(raised.value);
    }

    /** The best-effort terminal index entry, in the bucket of a floor; `indexed` is that floor, none
        when the entry is skipped. */
    method WriteTermIndex(s: Setup, shard: u16, id: Bytes16, budget: OpBudget) returns (ghost indexed: Option<u64>)
      requires Valid()
      modifies this, budget
      ensures Valid() && Paid(budget) && Quiet()
      ensures indexed.Some? ==> TermIndexed(s, shard, id, trace[|old(trace)|..], indexed.value)
      ensures indexed.None? && s.cached.Some? && s.terminalWidth > 0 ==> budget.ops == 0
    {
      hide FloorShown;
      indexed := None;
      var ok := Pay(budget);
      if !ok {
        return;
      }
      var floor := EstablishFloor(s, budget);
      if floor.Err? {
        return;
      }
      var bucket := BucketNumber(floor.value, s.terminalWidth);
      if bucket.None? {
        return;
      }
      ghost var heard := trace;
      var entry := PaidCall(Write(TermIndex(bucket.value, TermDead, shard, id), []), budget);
      if entry.Some? {
        indexed := Some(floor.value);
        assert trace[|old(trace)|..][..|trace[|old(trace)|..]| - 1] == heard[|old(trace)|..];
      }
    }

    // ---------- The gates ----------

    /** Whether the tail generation's fail record lets the claim through. */
    method BackoffOver(s: Setup, shard: u16, id: Bytes16, g: u32, budget: OpBudget) returns (r: Result<bool>)
      requires Valid()
      modifies this, budget
      ensures Valid() && Paid(budget) && Quiet()
      ensures g == 0 ==> r == Ok(true) && trace == old(trace)
      ensures g > 0 && r == Ok(true) ==> BackoffPassed(s, shard, id, trace[|old(trace)|..], g)
      ensures r == Ok(false) ==>
                exists fail :: FailRead(s, shard, id, trace[|old(trace)|..], g, fail) && s.floor < fail.retryNotBefore
      ensures r == Err(BudgetExhausted) ==> budget.ops == 0
      ensures r == Err(Broken) ==> Troubled(s, trace[|old(trace)|..])
    {
      hide ValueDecode;
      if g == 0 {
        return Ok(true);
      }
      var key := Fail(shard, id, g);
      var reply := PaidCall(GetOf(key), budget);
      if reply.None? {
        return Err(BudgetExhausted);
      }
      ghost var ev := Asked(GetOf(key), reply.value);
      assert ev in trace[|old(trace)|..];
      match reply.value {
        case Missing => return Ok(true);
        case Found(_, body) =>
          var fail := ValueDecode(s.sha, body, s.queueId, s.tag(key));
          if fail.None? || !fail.value.FailRecord? {
            assert Trouble(s, ev);
            return Err(Broken);
          }
          assert Reads(s, ev, key, fail.value);
          assert FailRead(s, shard, id, trace[|old(trace)|..], g, fail.value);
          return Ok(s.floor >= fail.value.retryNotBefore);
        case _ =>
          assert Trouble(s, ev);
          return Err(Broken);
      }
    }

    /** The job record, `None` when it is gone. */
    method ReadJob(s: Setup, shard: u16, id: Bytes16, budget: OpBudget) returns (r: Result<Option<Record>>)
      requires Valid()
      modifies this, budget
      ensures Valid() && Paid(budget) && Quiet()
      ensures r == Ok(None) ==> Asked(GetOf(Job(shard, id)), Missing) in trace[|old(trace)|..]
      ensures r.Ok? && r.value.Some? ==> JobRead(s, shard, id, trace[|old(trace)|..], r.value.value)
      ensures r == Err(BudgetExhausted) ==> budget.ops == 0
      ensures r == Err(Broken) ==> Troubled(s, trace[|old(trace)|..])
    {
      hide ValueDecode;
      var key := Job(shard, id);
      var reply := PaidCall(GetOf(key), budget);
      if reply.None? {
        return Err(BudgetExhausted);
      }
      ghost var ev := Asked(GetOf(key), reply.value);
      assert ev in trace[|old(trace)|..];
      match reply.value {
        case Missing => return Ok(None);
        case Found(_, body) =>
          var job := ValueDecode(s.sha, body, s.queueId, s.tag(key));
          if job.None? || !job.value.JobRecord? {
            assert Trouble(s, ev);
            return Err(Broken);
          }
          assert Reads(s, ev, key, job.value);
          return Ok(job);
        case _ =>
          assert Trouble(s, ev);
          return Err(Broken);
      }
    }

    /** After the claim is committed: the read-back, the hint and the lease index. */
    method Settle(s: Setup, shard: u16, id: Bytes16, job: Record, claim: Record, g: u32, hint: Option<u32>,
                  budget: OpBudget) returns (r: Result<Handle>)
      requires Valid() && job.JobRecord?
      modifies this, budget
      ensures Valid() && Paid(budget) && Quiet()
      ensures r.Ok? ==>
                && r.value.claim == claim && PayloadOf(job) == Some(r.value.payload)
                && exists ev :: ev in trace[|old(trace)|..] && ReadBack(shard, id, ev, g, r.value.time)
      ensures r.Ok? && s.leaseWidth > 0 ==>
                && |trace| > |old(trace)| && trace[|trace| - 1].Asked?
                && var bucket := BucketNumber(Saturate(r.value.time + s.lease), s.leaseWidth);
                trace[|trace| - 1].request == Write(LeaseIndex(bucket.value, shard, id, g), [])
      ensures r.Ok? && s.leaseWidth > 0 && s.hints && (hint.Some? ==> hint.value < g) ==>
                && |trace| == |old(trace)| + 3 && trace[|old(trace)| + 1].Asked?
                && trace[|old(trace)| + 1].request == Write(Tail(shard, id), BigEndian(g, 8))
      ensures r == Err(BudgetExhausted) ==> budget.ops == 0
      ensures r == Err(Broken) ==> Troubled(s, trace[|old(trace)|..]) || PayloadOf(job).None?
    {
      hide BigEndian, Trouble, Troubled, PayloadOf, Saturate;
      var key := Claim(shard, id, g);
      var meta := PaidCall(HeadOf(key), budget);
      if meta.None? {
        return Err(BudgetExhausted);
      }
      ghost var ev := trace[|old(trace)|];
      if !meta.value.Found? {
        LostClaimTroubles(s, shard, id, g, trace, |old(trace)|);
        return Err(Broken);
      }
      var payload := PayloadOf(job);
      if payload.None? {
        return Err(Broken);
      }
      var time := meta.value.time;
      WriteHint(s, shard, id, g, hint, budget);
      var bucket := BucketNumber(Saturate(time + s.lease), s.leaseWidth);
      if bucket.Some? {
        var index := PaidCall(Write(LeaseIndex(bucket.value, shard, id, g), []), budget);
        if index.None? {
          return Err(BudgetExhausted);
        }
      }
      assert ev in trace[|old(trace)|..] && ReadBack(shard, id, ev, g, time);
      return Ok(Handle(claim, time, payload.value));
    }

    // ---------- The probe ----------

    /** At most one record was committed, on this evidence, and a dead record only where allowed. */
    twostate predicate Commits(s: Setup, shard: u16, id: Bytes16, from: nat, e: Evidence, job: Record, bury: bool)
      requires from <= |trace|
      reads this
    {
      || committed == old(committed)
      || exists key, r ::
           && committed == old(committed) + {(key, r)} && Warranted(s, shard, id, trace[from..], e, job, key, r)
           && (key.Dead? ==> bury)
    }

    /** The dead record of a job whose attempts are used up, and its index entry. The exchanges of the
        pass start at `from`. */
    method Exhaust(s: Setup, shard: u16, id: Bytes16, e: Evidence, ghost job: Record, ghost from: nat,
                   budget: OpBudget) returns (r: Result<Pass>)
      requires Valid() && from <= |trace| && Passes(s, shard, id, trace[from..], e, job)
      requires e.attempt >= job.maximumAttempts
      modifies this, budget
      ensures Valid() && Paid(budget) && Silent() && Commits(s, shard, id, from, e, job, true)
      ensures match r
              case Ok(p) => p == Done(None) && Refused(s, shard, id, trace[from..], e)
              case Err(BudgetExhausted) => budget.ops == 0
              case Err(Broken) => Troubled(s, trace[from..])
    {
      hide FloorShown, Passes, Troubled, Warranted, Refused, TermIndexed;
      ghost var before := trace;
      var ok := Pay(budget);
      if !ok {
        return Err(BudgetExhausted);
      }
      var dead := DeadRecord(id, e.tail.generation, e.attempt, ATTEMPTS_EXHAUSTED);
      var put := Put(s, Dead(shard, id), dead, budget);
      if put.Err? {
        TroubledBy(s, trace, from, |before|);
        return Err(put.error);
      }
      if put.value.Committed? {
        ghost var _ := WriteTermIndex(s, shard, id, budget);
      }
      ExhaustedBy(s, shard, id, before, trace, from, e, job, put.value);
      return Ok(Done(None));
    }

    /** The claim: its conditional write, its read-back and its advisory entries. */
    method TakeOver(s: Setup, shard: u16, id: Bytes16, e: Evidence, job: Record, hint: Option<u32>, hintUsed: bool,
                    token: Bytes16, ghost from: nat, budget: OpBudget) returns (r: Result<Pass>)
      requires Valid() && (token == s.tokens(0) || token == s.tokens(1)) && from <= |trace| && job.JobRecord?
      requires Passes(s, shard, id, trace[from..], e, job)
      requires e.attempt < job.maximumAttempts && e.tail.generation < U32_MAX
      modifies this, budget
      ensures Valid() && Paid(budget) && Silent() && Commits(s, shard, id, from, e, job, false)
      ensures match r
              case Ok(Done(Some(h))) =>
                && Granted(s, shard, id, trace[from..], e, job, h)
                && committed == old(committed) + {(Claim(shard, id, e.tail.generation + 1), h.claim)}
              case Ok(Done(None)) => !hintUsed && Overtaken(s, shard, id, trace[from..], e)
              case Ok(Relist) => hintUsed && committed == old(committed) && Overtaken(s, shard, id, trace[from..], e)
              case Err(BudgetExhausted) => budget.ops == 0
              case Err(Broken) => Troubled(s, trace[from..]) || PayloadOf(job).None?
    {
      hide Passes, Troubled, ReadBack;
      ghost var before := trace;
      var g := e.tail.generation + 1;
      var claim := ClaimRecord(id, g, e.attempt + 1, s.workerId, token, s.lease, false,
                               Some(Basis(e.tail.time, e.lease, s.floor)), None);
      var ok := Pay(budget);
      if !ok {
        return Err(BudgetExhausted);
      }
      var put := Put(s, Claim(shard, id, g), claim, budget);
      ghost var ev := trace[|before|];
      if put.Err? {
        TroubledBy(s, trace, from, |before|);
        return Err(put.error);
      }
      if !put.value.Committed? {
        assert ev == trace[from..][|before| - from] && ev in trace[from..];
        assert TakesOver(s, id, e, claim) && Outcome(ev, Claim(shard, id, g), claim, Resolver.Lost);
        return Ok(if hintUsed then Relist else Done(None));
      }
      ghost var written := trace;
      var settled := Settle(s, shard, id, job, claim, g, hint, budget);
      SliceIncludes(before, trace, from, from, |trace|);
      assert trace[from..|trace|] == trace[from..];
      PassesStays(s, shard, id, before[from..], trace[from..], e, job);
      assert Warranted(s, shard, id, trace[from..], e, job, Claim(shard, id, g), claim);
      SuffixIncludes(trace, from, |written|);
      if settled.Err? {
        TroubledStays(s, trace[|written|..], trace[from..]);
        return Err(settled.error);
      }
      return Ok(Done(Some(settled.value)));
    }

    /** The gates in front of the attempts: the job record when all are open, none when one is closed. */
    method Examine(s: Setup, shard: u16, id: Bytes16, e: Evidence, budget: OpBudget) returns (r: Result<Option<Record>>)
      requires Valid()
      modifies this, budget
      ensures Valid() && Paid(budget) && Quiet()
      ensures var heard := trace[|old(trace)|..];
              match r
              case Ok(Some(job)) => Passes(s, shard, id, heard, e, job)
              case Ok(None) => Declined(s, shard, id, heard, e)
              case Err(BudgetExhausted) => budget.ops == 0
              case Err(Broken) => Troubled(s, heard)
    {
      hide ValueDecode, Troubled, Reads, BackoffPassed;
      var g := e.tail.generation;
      var rested := BackoffOver(s, shard, id, g, budget);
      if rested.Err? {
        return Err(rested.error);
      }
      if !rested.value || (g > 0 && s.floor < ExpiryGuard(s, e)) {
        return Ok(None);
      }
      ghost var before := trace;
      var job := ReadJob(s, shard, id, budget);
      SuffixIncludes(trace, |old(trace)|, |before|);
      if job.Err? {
        TroubledStays(s, trace[|before|..], trace[|old(trace)|..]);
        return Err(job.error);
      }
      if job.value.None? {
        return Ok(None);
      }
      assert JobRead(s, shard, id, trace[|old(trace)|..], job.value.value);
      if job.value.value.notBefore.Some? && s.floor < job.value.value.notBefore.value {
        return Ok(None);
      }
      if g > 0 {
        SliceIncludes(before, trace, |old(trace)|, |old(trace)|, |trace|);
        assert trace[|old(trace)|..|trace|] == trace[|old(trace)|..];
        BackoffStays(s, shard, id, before[|old(trace)|..], trace[|old(trace)|..], g);
      }
      return Ok(job.value);
    }

    /** One pass on the evidence at hand: the gates, then the dead record or the claim. */
    method Pursue(s: Setup, shard: u16, id: Bytes16, e: Evidence, hint: Option<u32>, hintUsed: bool, token: Bytes16,
                  budget: OpBudget) returns (r: Result<Pass>, ghost job: Record)
      requires Valid() && (token == s.tokens(0) || token == s.tokens(1))
      modifies this, budget
      ensures Valid() && Paid(budget) && Silent() && Commits(s, shard, id, |old(trace)|, e, job, !hintUsed)
      ensures var heard := trace[|old(trace)|..];
              match r
              case Ok(Done(Some(h))) =>
                && Granted(s, shard, id, heard, e, job, h)
                && committed == old(committed) + {(Claim(shard, id, e.tail.generation + 1), h.claim)}
              case Ok(Done(None)) =>
                if hintUsed then Declined(s, shard, id, heard, e) else Refused(s, shard, id, heard, e)
              case Ok(Relist) =>
                && hintUsed && committed == old(committed)
                && (Overtaken(s, shard, id, heard, e)
                    || (Passes(s, shard, id, heard, e, job) && e.attempt >= job.maximumAttempts))
              case Err(BudgetExhausted) => budget.ops == 0
              case Err(Broken) => Stuck(s, shard, id, heard, e, job)
    {
      hide Troubled, Declined, JobRead, Rested, Granted, Warranted, Overtaken, Exhausted, Stuck;
      job := DeadRecord(id, 0, 0, 0);
      var read := Examine(s, shard, id, e, budget);
      StuckByTrouble(s, shard, id, trace[|old(trace)|..], trace[|old(trace)|..], e, job);
      if read.Err? {
        return Err(read.error), job;
      }
      if read.value.None? {
        return Ok(Done(None)), job;
      }
      var found := read.value.value;
      job := found;
      JobIsRead(s, shard, id, trace[|old(trace)|..], job);
      if e.attempt + 1 > found.maximumAttempts {
        if hintUsed {
          return Ok(Relist), job;
        }
        r := Exhaust(s, shard, id, e, job, |old(trace)|, budget);
        StuckByTrouble(s, shard, id, trace[|old(trace)|..], trace[|old(trace)|..], e, job);
        return;
      }
      if e.tail.generation >= U32_MAX {
        StuckAtTheEnd(s, shard, id, trace[|old(trace)|..], e, job);
        return Err(Broken), job;
      }
      ghost var before := trace;
      r := TakeOver(s, shard, id, e, found, hint, hintUsed, token, |old(trace)|, budget);
      if r == Err(Broken) {
        SliceIncludes(before, trace, |old(trace)|, |old(trace)|, |trace|);
        assert trace[|old(trace)|..|trace|] == trace[|old(trace)|..];
        StuckAfterRead(s, shard, id, before[|old(trace)|..], trace[|old(trace)|..], e, job);
      }
    }

    /** The first pass on the evidence gathered and, after a stale hint, one on the listing's. `used` is
        the evidence of the pass that ended it, `job` the record it read. */
    method PursueTwice(s: Setup, shard: u16, id: Bytes16, e: Evidence, hint: Option<u32>, hintUsed: bool,
                       budget: OpBudget)
      returns (r: Result<Option<Handle>>, ghost used: Evidence, ghost job: Record, ghost relisted: bool)
      requires Valid()
      modifies this, budget
      ensures Valid() && Paid(budget) && Silent()
      ensures Commits(s, shard, id, |old(trace)|, used, job, relisted || !hintUsed)
      ensures if relisted then hintUsed && Listed(s, shard, id, trace, |old(trace)|, used) else used == e
      ensures var heard := trace[|old(trace)|..];
              match r
              case Ok(Some(h)) =>
                && Granted(s, shard, id, heard, used, job, h)
                && committed == old(committed) + {(Claim(shard, id, used.tail.generation + 1), h.claim)}
              case Ok(None) =>
                if relisted || !hintUsed then Refused(s, shard, id, heard, used)
                else Declined(s, shard, id, heard, used)
              case Err(BudgetExhausted) => budget.ops == 0
              case Err(Broken) => Stuck(s, shard, id, heard, used, job)
    {
      hide Shows, Listed, Granted, Refused, Declined, Passes, Overtaken, Stuck, Warranted;
      used, relisted := e, false;
      var pass;
      pass, job := Pursue(s, shard, id, e, hint, hintUsed, s.tokens(0), budget);
      if pass != Ok(Relist) {
        r := if pass.Err? then Err(pass.error) else Ok(pass.value.claim);
        return;
      }
      ghost var from := |trace|;
      var listed := ListedEvidence(s, shard, id, budget);
      SuffixIncludes(trace, |old(trace)|, from);
      if listed.Err? {
        StuckByTrouble(s, shard, id, trace[from..], trace[|old(trace)|..], used, job);
        return Err(listed.error), used, job, relisted;
      }
      ghost var heard := trace;
      used, relisted := listed.value, true;
      pass, job := Pursue(s, shard, id, listed.value, hint, false, s.tokens(1), budget);
      ListedStays(s, shard, id, heard, trace, from, used);
      ListedSince(s, shard, id, trace, |old(trace)|, from, used);
      SuffixIncludes(trace, |old(trace)|, |heard|);
      Lift(s, shard, id, trace[|heard|..], trace[|old(trace)|..], used, job);
      r := if pass.Err? then Err(pass.error) else Ok(pass.value.claim);
    }

    /** The evidence the gather leads to. A terminal record ends it before an error of the tail branch
        does. */
    method Gather(s: Setup, shard: u16, id: Bytes16, budget: OpBudget)
      returns (r: Result<Option<Evidence>>, hint: Option<u32>, hintUsed: bool)
      requires Valid()
      modifies this, budget
      ensures Valid() && Paid(budget) && Quiet()
      ensures Finished(shard, id, trace[|old(trace)|..]) <==> r == Ok(None)
      ensures match r
              case Ok(Some(e)) =>
                && Unfinished(shard, id, trace[|old(trace)|..])
                && (if hintUsed then hint == Some(e.tail.generation) && Grounded(s, shard, id, trace, |old(trace)|, e)
                    else Listed(s, shard, id, trace, |old(trace)|, e))
              case Ok(None) => true
              case Err(BudgetExhausted) => budget.ops == 0
              case Err(Broken) => Troubled(s, trace[|old(trace)|..])
    {
      hide ValueDecode, Shows, ListsTail, Listed, HintedBy, Troubled;
      hint, hintUsed := None, false;
      for i := 0 to 3
        invariant Valid() && Paid(budget) && Quiet() && calls == old(calls) && spent == old(spent) + i
        invariant trace == old(trace)
      {
        var ok := Pay(budget);
        if !ok {
          assert !Finished(shard, id, trace[|old(trace)|..]);
          return Err(BudgetExhausted), hint, hintUsed;
        }
      }
      var receipt := Call(HeadOf(Receipt(shard, id)));
      var dead := Call(HeadOf(Dead(shard, id)));
      ghost var heads := [Asked(HeadOf(Receipt(shard, id)), receipt), Asked(HeadOf(Dead(shard, id)), dead)];
      assert trace == old(trace) + heads;
      ghost var start := |trace|;
      var tail, hinted;
      ghost var from;
      tail, hint, hinted, from := FindTail(s, shard, id, budget);
      assert trace[|old(trace)|..][..2] == heads;
      if receipt.Found? || dead.Found? {
        return Ok(None), hint, hintUsed;
      }
      if !receipt.Missing? || !dead.Missing? {
        TroubledBy(s, trace, |old(trace)|, if receipt.Missing? then |old(trace)| + 1 else |old(trace)|);
        return Err(Broken), hint, hintUsed;
      }
      if tail.Err? {
        SuffixIncludes(trace, |old(trace)|, start);
        if tail.error.Broken? {
          UnansweredTroubles(s, trace[start..]);
          TroubledStays(s, trace[start..], trace[|old(trace)|..]);
        }
        return Err(tail.error), hint, hintUsed;
      }
      if hinted.Some? {
        assert trace[from..|trace|] == trace[from..];
        return Ok(Some(hinted.value)), hint, true;
      }
      ghost var heard := trace;
      var e := TailRecord(s, shard, id, tail.value, budget);
      assert trace[|old(trace)|..][..2] == heads;
      if e.Err? {
        SuffixIncludes(trace, |old(trace)|, |heard|);
        if e.error.Broken? {
          TroubledStays(s, trace[|heard|..], trace[|old(trace)|..]);
        }
        return Err(e.error), hint, hintUsed;
      }
      RecordListed(s, shard, id, heard, trace, from, e.value);
      ListedSince(s, shard, id, trace, |old(trace)|, from, e.value);
      r := Ok(Some(e.value));
    }

    /** The probe. Whatever the store answers, every call is paid for; a claim reported is a committed
        takeover of the tail that `used` shows, behind every gate and with the payload of the job record
        read; the one other record it may commit is the dead record of a job whose attempts are used
        up, never on a hint; and one that ends with no claim or an error has its reason on record. */
    method TryClaim(s: Setup, name: Name, shard: u16, id: Bytes16, budget: OpBudget)
      returns (r: Result<Option<Handle>>, ghost used: Evidence, ghost job: Record, ghost authoritative: bool)
      requires Valid()
      modifies this, budget
      ensures Valid() && Paid(budget) && probed == old(probed) + [name]
      ensures reported == if r.Ok? && r.value.Some? then old(reported) + [name] else old(reported)
      ensures failures == if r.Err? then old(failures) + 1 else old(failures)
      ensures Commits(s, shard, id, |old(trace)|, used, job, authoritative)
      ensures committed != old(committed) ==>
                && Unfinished(shard, id, trace[|old(trace)|..])
                && Grounded(s, shard, id, trace, |old(trace)|, used)
                && (authoritative ==> Listed(s, shard, id, trace, |old(trace)|, used))
      ensures Finished(shard, id, trace[|old(trace)|..]) ==> r == Ok(None) && committed == old(committed)
      ensures var heard := trace[|old(trace)|..];
              match r
              case Ok(Some(h)) =>
                && Granted(s, shard, id, heard, used, job, h)
                && committed == old(committed) + {(Claim(shard, id, used.tail.generation + 1), h.claim)}
              case Ok(None) =>
                || Finished(shard, id, heard)
                || (Grounded(s, shard, id, trace, |old(trace)|, used)
                    && if authoritative then Refused(s, shard, id, heard, used)
                       else Declined(s, shard, id, heard, used))
              case Err(BudgetExhausted) => budget.ops == 0
              case Err(Broken) => Stuck(s, shard, id, heard, used, job)
    {
      hide Shows, Listed, HintedBy, Granted, Refused, Declined, Stuck, Warranted, Finished, Unfinished;
      used, job, authoritative := Evidence(NO_CLAIM, 0, 0), DeadRecord(id, 0, 0, 0), false;
      probed := probed + [name];
      var e, hint, hintUsed := Gather(s, shard, id, budget);
      if e.Err? {
        if e.error.Broken? {
          StuckByTrouble(s, shard, id, trace[|old(trace)|..], trace[|old(trace)|..], used, job);
        }
        failures := failures + 1;
        return Err(e.error), used, job, authoritative;
      }
      if e.value.None? {
        return Ok(None), used, job, authoritative;
      }
      ghost var heard := trace;
      ghost var relisted;
      r, used, job, relisted := PursueTwice(s, shard, id, e.value.value, hint, hintUsed, budget);
      authoritative := relisted || !hintUsed;
      GatherLasts(shard, id, heard, trace, |old(trace)|);
      SuffixIncludes(trace, |old(trace)|, |heard|);
      Lift(s, shard, id, trace[|heard|..], trace[|old(trace)|..], used, job);
      if relisted {
        ListedSince(s, shard, id, trace, |old(trace)|, |heard|, used);
      } else if hintUsed {
        GroundedStays(s, shard, id, heard, trace, |old(trace)|, used);
      } else {
        ListedStays(s, shard, id, heard, trace, |old(trace)|, used);
      }
      if r.Err? {
        failures := failures + 1;
      } else if r.value.Some? {
        reported := reported + [name];
      }
    }
  }
}
