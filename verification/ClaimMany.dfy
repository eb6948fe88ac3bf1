/** Batched claiming: one paged scan of a shard, candidates probed in waves on split budgets, and
    every claim a probe reports returned. Every reply of the store is arbitrary. */
module ClaimMany {
  import opened Wrappers
  import opened Bytes
  import opened Arithmetic
  import opened Budget
  import opened Keys
  import opened Listing
  import Probe
  import ProbeTrace

  datatype Result = Ok(claims: seq<Name>) | Err(error: ProbeTrace.Error)

  const SCAN_PAGE: nat := 1024

  predicate IsJobKey(k: Name) {
    Parse(k).Some? && Parse(k).value.Job?
  }

  /** Probes one candidate on its child budget. */
  method ProbeOne(w: Probe.World, s: ProbeTrace.Setup, name: Name, children: array<nat>, i: nat)
    returns (outcome: ProbeTrace.Result<bool>)
    requires w.Valid() && IsJobKey(name) && i < children.Length
    modifies w, children
    ensures w.Valid() && Sum(children[..]) + w.spent == Sum(old(children[..])) + old(w.spent)
    ensures 0 <= w.calls - old(w.calls) <= w.spent - old(w.spent) && old(w.trace) <= w.trace
    ensures w.probed == old(w.probed) + [name]
    ensures w.reported == if outcome == ProbeTrace.Ok(true) then old(w.reported) + [name] else old(w.reported)
    ensures w.failures == if outcome.Err? then old(w.failures) + 1 else old(w.failures)
  {
    hide IsJobKey, Parse, ProbeTrace.Grounded, ProbeTrace.Granted, ProbeTrace.Refused, ProbeTrace.Declined,
      ProbeTrace.Stuck, ProbeTrace.Warranted, ProbeTrace.Finished, ProbeTrace.Unfinished, ProbeTrace.Listed;
    var shard, id := JobOf(name);
    var child := new OpBudget(children[i]);
    var claim, _, _, _ := w.TryClaim(s, name, shard, id, child);
    SumUpdates(children[..], i, child.ops);
    ghost var updated := children[..][i := child.ops];
    children[i] := child.ops;
    assert children[..] == updated;
    return if claim.Err? then ProbeTrace.Err(claim.error) else ProbeTrace.Ok(claim.value.Some?);
  }

  /** Probes a wave of candidates, each on its own child budget. */
  method ProbeWave(w: Probe.World, s: ProbeTrace.Setup, wave: seq<Name>, children: array<nat>)
    returns (claims: seq<Name>, failed: bool, exhausted: bool)
    requires w.Valid() && children.Length == |wave| && forall k :: k in wave ==> IsJobKey(k)
    modifies w, children
    ensures w.Valid() && w.reported == old(w.reported) + claims && Within(claims, wave)
    ensures Sum(children[..]) + w.spent == Sum(old(children[..])) + old(w.spent)
    ensures 0 <= w.calls - old(w.calls) <= w.spent - old(w.spent) && old(w.trace) <= w.trace
    ensures w.probed == old(w.probed) + wave && w.failures >= old(w.failures)
    ensures failed || exhausted <==> w.failures > old(w.failures)
  {
    hide IsJobKey, Within, Sum, Ascending;
    claims, failed, exhausted := [], false, false;
    NothingWithin(wave[..0]);
    for i := 0 to |wave|
      invariant w.Valid() && w.reported == old(w.reported) + claims && Within(claims, wave[..i])
      invariant Sum(children[..]) + w.spent == Sum(old(children[..])) + old(w.spent)
      invariant 0 <= w.calls - old(w.calls) <= w.spent - old(w.spent) && old(w.trace) <= w.trace
      invariant w.probed == old(w.probed) + wave[..i] && w.failures >= old(w.failures)
      invariant failed || exhausted <==> w.failures > old(w.failures)
    {
      var outcome := ProbeOne(w, s, wave[i], children, i);
      WithinNext(claims, wave, i);
      assert wave[..i + 1] == wave[..i] + [wave[i]];
      assert w.probed == old(w.probed) + wave[..i + 1];
      match outcome {
        case Ok(claimed) =>
          if claimed {
            claims := claims + [wave[i]];
          }
        case Err(e) =>
          if e.BudgetExhausted? {
            exhausted := true;
          } else {
            failed := true;
          }
      }
    }
    assert wave[..|wave|] == wave;
  }

  method JobOf(k: Name) returns (shard: u16, id: Bytes16)
    requires IsJobKey(k)
    ensures Parse(k) == Some(Job(shard, id))
  {
    var key := Parse(k).value;
    return key.shard, key.jobId;
  }

  // ---------- Selections in order ----------

  /** `s` picks some of `t`, keeping its order. */
  ghost predicate Within(s: seq<Name>, t: seq<Name>)
    decreases |t|
  {
    s == [] || (t != []
                && if s[|s| - 1] == t[|t| - 1] then Within(s[..|s| - 1], t[..|t| - 1]) else Within(s, t[..|t| - 1]))
  }

  lemma {:induction false} WithinIsSmall(s: seq<Name>, t: seq<Name>)
    requires Within(s, t)
    ensures |s| <= |t| && forall k :: k in s ==> k in t
    decreases |t|
  {
    if s != [] {
      var last := s[|s| - 1];
      assert forall k :: k in t <==> k in t[..|t| - 1] || k == t[|t| - 1];
      if last == t[|t| - 1] {
        WithinIsSmall(s[..|s| - 1], t[..|t| - 1]);
        assert forall k :: k in s <==> k in s[..|s| - 1] || k == last;
      } else {
        WithinIsSmall(s, t[..|t| - 1]);
      }
    }
  }

  lemma NothingWithin(t: seq<Name>)
    ensures Within([], t)
  {}

  lemma WithinNext(s: seq<Name>, t: seq<Name>, i: nat)
    requires i < |t| && Within(s, t[..i])
    ensures Within(s + [t[i]], t[..i + 1])
    ensures Within(s, t[..i + 1])
  {
    assert t[..i + 1][..i] == t[..i];
    assert (s + [t[i]])[..|s|] == s;
    if s != [] && s[|s| - 1] == t[i] {
      WithinShorter(s, t[..i]);
    }
  }

  lemma {:induction false} WithinShorter(s: seq<Name>, t: seq<Name>)
    requires Within(s, t) && s != []
    ensures Within(s[..|s| - 1], t)
    decreases |t|, 1
  {
    if s[|s| - 1] == t[|t| - 1] {
      WithinLonger(s[..|s| - 1], t);
    } else {
      WithinShorter(s, t[..|t| - 1]);
      WithinLonger(s[..|s| - 1], t);
    }
  }

  lemma {:induction false} WithinLonger(s: seq<Name>, t: seq<Name>)
    requires t != [] && Within(s, t[..|t| - 1])
    ensures Within(s, t)
    decreases |t|, 0
  {
    if s != [] && s[|s| - 1] == t[|t| - 1] {
      WithinShorter(s, t[..|t| - 1]);
    }
  }

  lemma {:induction false} WithinAscends(s: seq<Name>, t: seq<Name>)
    requires Within(s, t) && Ascending(t)
    ensures Ascending(s)
    decreases |t|
  {
    if s != [] {
      var init := t[..|t| - 1];
      if s[|s| - 1] == t[|t| - 1] {
        WithinAscends(s[..|s| - 1], init);
        WithinIsSmall(s[..|s| - 1], init);
        forall i | 0 <= i < |s| - 1 ensures Less(s[i], s[|s| - 1]) {
          assert s[i] in s[..|s| - 1];
        }
      } else {
        WithinAscends(s, init);
      }
    }
  }

  /** Appending a selection of later keys keeps the order. */
  lemma AppendLater(done: seq<Name>, more: seq<Name>)
    requires Ascending(done) && Ascending(more)
    requires forall j, k :: j in done && k in more ==> Less(j, k)
    ensures Ascending(done + more)
  {
    var all := done + more;
    forall i, j | 0 <= i < j < |all| ensures Less(all[i], all[j]) {
      if i < |done| <= j {
        assert all[i] in done && all[j] in more;
      }
    }
  }

  // ---------- Candidates of a page ----------

  /** Job keys of the page that are not already known to be terminal. */
  function Candidates(items: seq<Name>, memo: set<Name>): seq<Name> {
    if items == [] then []
    else
      var init, last := Candidates(items[..|items| - 1], memo), items[|items| - 1];
      if IsJobKey(last) && last !in memo then init + [last] else init
  }

  lemma {:induction false} CandidatesWithin(items: seq<Name>, memo: set<Name>)
    ensures Within(Candidates(items, memo), items)
    ensures forall k :: k in Candidates(items, memo) ==> IsJobKey(k)
    decreases |items|
  {
    if items != [] {
      var init, last := items[..|items| - 1], items[|items| - 1];
      CandidatesWithin(init, memo);
      var c := Candidates(init, memo);
      assert (c + [last])[..|c|] == c;
      WithinLonger(c, items);
    }
  }

  lemma {:induction false} CandidatesHold(items: seq<Name>, memo: set<Name>, k: Name)
    ensures k in Candidates(items, memo) <==> k in items && Parse(k).Some? && Parse(k).value.Job? && k !in memo
    decreases |items|
  {
    if items != [] {
      var init, last := items[..|items| - 1], items[|items| - 1];
      CandidatesHold(init, memo, k);
      assert k in items <==> k in init || k == last;
    }
  }

  lemma {:induction false} CandidatesAppend(a: seq<Name>, b: seq<Name>, memo: set<Name>)
    ensures Candidates(a + b, memo) == Candidates(a, memo) + Candidates(b, memo)
    decreases |b|
  {
    hide IsJobKey;
    if b == [] {
      assert a + b == a;
    } else {
      assert (a + b)[..|a + b| - 1] == a + b[..|b| - 1];
      CandidatesAppend(a, b[..|b| - 1], memo);
    }
  }

  method Collect(items: seq<Name>, memo: set<Name>) returns (pending: seq<Name>)
    ensures pending == Candidates(items, memo)
  {
    hide IsJobKey;
    pending := [];
    for i := 0 to |items|
      invariant pending == Candidates(items[..i], memo)
    {
      assert items[..i + 1][..i] == items[..i];
      if !IsJobKey(items[i]) {
        continue;
      }
      if items[i] in memo {
        continue;
      }
      pending := pending + [items[i]];
    }
    assert items[..|items|] == items;
  }

  // ---------- The scan ----------

  /** What the scan has collected: claims in listing order, the candidates still to probe behind
      them, and nothing beyond the last listed key. */
  ghost predicate Scanned(claims: seq<Name>, pending: seq<Name>, after: Option<Name>, done: bool) {
    && Ascending(claims) && Ascending(pending) && (forall k :: k in pending ==> IsJobKey(k))
    && (forall j, k :: j in claims && k in pending ==> Less(j, k))
    && (!done ==> forall k :: k in claims || k in pending ==> after.Some? && !Less(after.value, k))
  }

  lemma SplitAscends(keys: seq<Name>, take: nat)
    requires Ascending(keys) && take <= |keys|
    ensures Ascending(keys[..take]) && Ascending(keys[take..])
    ensures forall k :: k in keys[..take] || k in keys[take..] ==> k in keys
    ensures forall j, k :: j in keys[..take] && k in keys[take..] ==> Less(j, k)
  {
    hide Less;
  }

  lemma ProbedWave(claims: seq<Name>, pending: seq<Name>, after: Option<Name>, done: bool, take: nat, won: seq<Name>)
    requires Scanned(claims, pending, after, done) && take <= |pending| && Within(won, pending[..take])
    ensures Scanned(claims + won, pending[take..], after, done) && |won| <= take
  {
    hide Less, IsJobKey, Ascending, Within;
    SplitAscends(pending, take);
    WithinIsSmall(won, pending[..take]);
    WithinAscends(won, pending[..take]);
    AppendLater(claims, won);
  }

  lemma ListedPage(claims: seq<Name>, keys: seq<Name>, prefix: Name, after: Option<Name>, memo: set<Name>)
    requires Scanned(claims, [], after, false) && Ascending(keys)
    ensures var p := PageOf(keys, prefix, after, SCAN_PAGE);
            Scanned(claims, Candidates(p.items, memo), if p.next.Some? then p.next else after, p.next.None?)
  {
    hide Less, IsJobKey;
    var p := PageOf(keys, prefix, after, SCAN_PAGE);
    var c, m := Candidates(p.items, memo), Matching(keys, prefix, after);
    CandidatesWithin(p.items, memo);
    WithinIsSmall(c, p.items);
    MatchingAscends(keys, prefix, after);
    WithinAscends(c, p.items);
    forall j, k | j in claims && k in c ensures Less(j, k) {
      assert k in m;
      MatchingHolds(keys, prefix, after, k);
      LessTotal(after.value, j);
      if j != after.value {
        LessTransitive(j, after.value, k);
      }
    }
    if p.next.Some? {
      forall k | k in claims || k in c ensures !Less(p.next.value, k) {
        if k in c {
          var x :| 0 <= x < SCAN_PAGE && m[x] == k;
          LessIrreflexive(k);
          if x < SCAN_PAGE - 1 {
            LessAsymmetric(m[x], m[SCAN_PAGE - 1]);
          }
        } else {
          MatchingHolds(keys, prefix, after, p.next.value);
          if Less(p.next.value, k) {
            LessTransitive(after.value, p.next.value, k);
          }
        }
      }
    }
  }

  // ---------- What the scan reaches ----------

  /** Every answered listing of the prefix showed these keys. */
  ghost predicate Steady(heard: seq<ProbeTrace.Event>, prefix: Name, keys: seq<Name>) {
    forall i :: 0 <= i < |heard| && ProbeTrace.Answered(heard[i], prefix) ==> heard[i].reply.keys == keys
  }

  /** Some listing of the prefix was not answered. */
  ghost predicate Unlisted(heard: seq<ProbeTrace.Event>, prefix: Name) {
    exists i :: 0 <= i < |heard| && heard[i].Asked? && heard[i].request == ProbeTrace.ListOf(prefix)
                && !ProbeTrace.Answered(heard[i], prefix)
  }

  /** The jobs a scan of these keys is for, in order. */
  function Targets(keys: seq<Name>, prefix: Name, memo: set<Name>): seq<Name> {
    Candidates(Matching(keys, prefix, None), memo)
  }

  /** They are the jobs probed, the ones pending, and those behind the cursor. */
  ghost predicate Reaches(keys: seq<Name>, prefix: Name, memo: set<Name>, probed: seq<Name>, pending: seq<Name>,
                          after: Option<Name>, done: bool) {
    Targets(keys, prefix, memo)
    == probed + pending + if done then [] else Candidates(Matching(keys, prefix, after), memo)
  }

  /** They are exactly the job keys under the prefix that are not known to be terminal, each once and
      in order. */
  lemma TargetsExactly(keys: seq<Name>, prefix: Name, memo: set<Name>)
    requires Ascending(keys)
    ensures Ascending(Targets(keys, prefix, memo))
    ensures forall k :: k in Targets(keys, prefix, memo)
                   <==> k in keys && prefix <= k && Parse(k).Some? && Parse(k).value.Job? && k !in memo
  {
    hide Parse, Ascending;
    var m := Matching(keys, prefix, None);
    MatchingAscends(keys, prefix, None);
    CandidatesWithin(m, memo);
    WithinAscends(Candidates(m, memo), m);
    forall k ensures k in Targets(keys, prefix, memo)
                <==> k in keys && prefix <= k && Parse(k).Some? && Parse(k).value.Job? && k !in memo {
      CandidatesHold(m, memo, k);
      MatchingHolds(keys, prefix, None, k);
    }
  }

  lemma SteadyEarlier(trace: seq<ProbeTrace.Event>, more: seq<ProbeTrace.Event>, from: nat, prefix: Name,
                      keys: seq<Name>)
    requires trace <= more && from <= |trace| && Steady(more[from..], prefix, keys)
    ensures Steady(trace[from..], prefix, keys)
  {
    forall i | 0 <= i < |trace[from..]| && ProbeTrace.Answered(trace[from..][i], prefix)
      ensures more[from..][i] == trace[from..][i]
    {}
  }

  /** One page on, its candidates are pending. */
  lemma ReachesOn(keys: seq<Name>, prefix: Name, memo: set<Name>, probed: seq<Name>, after: Option<Name>)
    requires Ascending(keys) && Reaches(keys, prefix, memo, probed, [], after, false)
    ensures var p := PageOf(keys, prefix, after, SCAN_PAGE);
            && Reaches(keys, prefix, memo, probed, Candidates(p.items, memo),
                       if p.next.Some? then p.next else after, p.next.None?)
            && (p.items == [] ==> probed == Targets(keys, prefix, memo))
  {
    hide IsJobKey;
    var m, p := Matching(keys, prefix, after), PageOf(keys, prefix, after, SCAN_PAGE);
    if p.next.Some? {
      MatchingContinues(keys, prefix, after, SCAN_PAGE - 1);
      CandidatesAppend(p.items, m[SCAN_PAGE..], memo);
      assert m == p.items + m[SCAN_PAGE..];
    }
  }

  /** Waves over the pending candidates, until enough are claimed or `stop` ends the scan. */
  method ProbePending(w: Probe.World, s: ProbeTrace.Setup, done: seq<Name>, queue: seq<Name>, max: nat,
                      budget: OpBudget, ghost after: Option<Name>, ghost scanDone: bool)
    returns (claims: seq<Name>, pending: seq<Name>, stop: Option<Result>)
    requires w.Valid() && w.reported == done && |done| <= max && Scanned(done, queue, after, scanDone)
    modifies w, budget
    ensures w.Valid() && w.Paid(budget) && w.reported == claims && |claims| <= max
    ensures Scanned(claims, pending, after, scanDone) && w.failures >= old(w.failures)
    ensures w.probed + pending == old(w.probed) + queue
    ensures stop.None? ==> (pending == [] || |claims| == max) && w.failures == old(w.failures)
    ensures stop.Some? && stop.value.Ok? ==>
              stop.value.claims == claims && (|claims| == max || w.failures > old(w.failures) || budget.ops == 0)
    ensures stop.Some? && stop.value.Err? ==> claims == [] && w.failures > old(w.failures)
  {
    hide Scanned, Within, IsJobKey;
    claims, pending := done, queue;
    while pending != [] && |claims| < max
      invariant w.Valid() && w.Paid(budget) && w.reported == claims && |claims| <= max
      invariant Scanned(claims, pending, after, scanDone) && w.failures == old(w.failures)
      invariant w.probed + pending == old(w.probed) + queue
      decreases |pending|
    {
      var take := Min(|pending|, max - |claims|);
      var children := budget.Split(take);
      PendingJobs(claims, pending, after, scanDone, take);
      var won, failed, exhausted := ProbeWave(w, s, pending[..take], children);
      ProbedWave(claims, pending, after, scanDone, take, won);
      assert pending == pending[..take] + pending[take..];
      pending := pending[take..];
      claims := claims + won;
      budget.Merge(children);
      if |claims| >= max {
        return claims, pending, Some(Ok(claims));
      }
      if failed {
        return claims, pending, Some(if claims == [] then Err(ProbeTrace.Broken) else Ok(claims));
      }
      if exhausted {
        return claims, pending, Some(if claims == [] then Err(ProbeTrace.BudgetExhausted) else Ok(claims));
      }
      if budget.ops == 0 {
        return claims, pending, Some(Ok(claims));
      }
    }
    stop := None;
  }

  /** Claims up to `max` jobs. Every claim a probe reported is returned, in listing order and for
      distinct jobs; an error is returned only when none was reported. What is left of the budget
      plus what was spent is what there was, and no store call goes unpaid. While the listings show
      the same keys, the jobs are probed in order from the first, and all of them unless enough were
      claimed, a call or a probe failed or the budget ran dry. */
  method ClaimUpTo(w: Probe.World, s: ProbeTrace.Setup, prefix: Name, memo: set<Name>, max: nat, budget: OpBudget,
                   ghost keys: seq<Name>)
    returns (r: Result)
    requires w.Valid() && w.reported == [] && w.probed == []
    modifies w, budget
    ensures w.Valid() && w.Paid(budget)
    ensures r.Ok? ==> r.claims == w.reported && |r.claims| <= max && Ascending(r.claims)
    ensures r.Err? ==> w.reported == []
    ensures Steady(w.trace[|old(w.trace)|..], prefix, keys) ==> w.probed <= Targets(keys, prefix, memo)
    ensures var heard := w.trace[|old(w.trace)|..];
            || w.failures > old(w.failures) || budget.ops == 0 || Unlisted(heard, prefix)
            || (r.Ok? && (|r.claims| == max
                          || (Steady(heard, prefix, keys) ==> w.probed == Targets(keys, prefix, memo))))
  {
    hide Scanned, Ascending, IsJobKey, Steady, Reaches, Unlisted;
    var after: Option<Name> := None;
    var pending: seq<Name> := [];
    var claims: seq<Name> := [];
    var scanDone := false;
    ghost var start := |w.trace|;
    NothingScanned();
    NothingReached(keys, prefix, memo);
    while true
      invariant w.Valid() && w.Paid(budget) && w.reported == claims && |claims| <= max
      invariant Scanned(claims, pending, after, scanDone) && w.failures == old(w.failures)
      invariant Steady(w.trace[start..], prefix, keys) ==>
                  Reaches(keys, prefix, memo, w.probed, pending, after, scanDone)
      decreases budget.ops
    {
      ghost var trace, probed, queue := w.trace, w.probed, pending;
      var stop;
      claims, pending, stop := ProbePending(w, s, claims, pending, max, budget, after, scanDone);
      ScannedClaims(claims, pending, after, scanDone);
      if Steady(w.trace[start..], prefix, keys) {
        SteadyEarlier(trace, w.trace, start, prefix, keys);
        ReachesWaves(keys, prefix, memo, probed, queue, w.probed, pending, after, scanDone);
      }
      if stop.Some? {
        return stop.value;
      }
      if scanDone || |claims| >= max {
        return Ok(claims);
      }
      trace := w.trace;
      var reply := w.PaidCall(ProbeTrace.ListOf(prefix), budget);
      if reply.None? {
        return if claims == [] then Err(ProbeTrace.BudgetExhausted) else Ok(claims);
      }
      if Steady(w.trace[start..], prefix, keys) {
        SteadyEarlier(trace, w.trace, start, prefix, keys);
      }
      if !reply.value.Stored? {
        UnlistedBy(w.trace, start, |trace|, prefix);
        return if claims == [] then Err(ProbeTrace.Broken) else Ok(claims);
      }
      var page := PageOf(reply.value.keys, prefix, after, SCAN_PAGE);
      if Steady(w.trace[start..], prefix, keys) {
        SteadyListing(w.trace, start, |trace|, prefix, keys);
        ReachesOn(keys, prefix, memo, w.probed, after);
      }
      if page.items == [] {
        return Ok(claims);
      }
      ListedPage(claims, reply.value.keys, prefix, after, memo);
      pending := Collect(page.items, memo);
      match page.next {
        case Some(k) => after := Some(k);
        case None => scanDone := true;
      }
    }
  }

  lemma NothingReached(keys: seq<Name>, prefix: Name, memo: set<Name>)
    ensures Reaches(keys, prefix, memo, [], [], None, false)
  {}

  lemma ReachesWaves(keys: seq<Name>, prefix: Name, memo: set<Name>, probed: seq<Name>, queue: seq<Name>,
                     probed': seq<Name>, pending: seq<Name>, after: Option<Name>, done: bool)
    requires Reaches(keys, prefix, memo, probed, queue, after, done) && probed' + pending == probed + queue
    ensures Reaches(keys, prefix, memo, probed', pending, after, done) && probed' <= Targets(keys, prefix, memo)
    ensures done && pending == [] ==> probed' == Targets(keys, prefix, memo)
  {}

  lemma UnlistedBy(trace: seq<ProbeTrace.Event>, from: nat, i: nat, prefix: Name)
    requires from <= i < |trace| && trace[i].Asked? && trace[i].request == ProbeTrace.ListOf(prefix)
    requires !trace[i].reply.Stored?
    ensures Unlisted(trace[from..], prefix)
  {
    assert trace[from..][i - from] == trace[i];
  }

  lemma SteadyListing(trace: seq<ProbeTrace.Event>, from: nat, i: nat, prefix: Name, keys: seq<Name>)
    requires from <= i < |trace| && ProbeTrace.Answered(trace[i], prefix) && Steady(trace[from..], prefix, keys)
    ensures trace[i].reply.keys == keys
  {
    assert trace[from..][i - from] == trace[i];
  }

  lemma PendingJobs(claims: seq<Name>, pending: seq<Name>, after: Option<Name>, done: bool, take: nat)
    requires Scanned(claims, pending, after, done) && take <= |pending|
    ensures forall k :: k in pending[..take] ==> IsJobKey(k)
  {
    hide IsJobKey;
  }

  lemma NothingScanned()
    ensures Scanned([], [], None, false)
  {}

  lemma ScannedClaims(claims: seq<Name>, pending: seq<Name>, after: Option<Name>, done: bool)
    requires Scanned(claims, pending, after, done)
    ensures Ascending(claims)
  {}
}
