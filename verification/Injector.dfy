/** The scripted fault injector: each plan fails chosen call indexes of one operation, at most one
    fault fires per call, and a faulted call is invisible to later plans. */
module Injector {
  import opened Wrappers
  import opened Arithmetic

  datatype Op = PutIfAbsent | Cas | Get | Head | List | Delete
  type Injected = f: Fault | f != Pass witness PreTransmit
  datatype Plan = Plan(op: Op, at: seq<nat>, fault: Injected)
  datatype Progress = Progress(count: nat, remaining: seq<nat>, fired: nat)

  // ---------- The schedule as a function of the calls made ----------

  /** The first plan from `i` on that matches the operation and is due at its own count. */
  function Due(plans: seq<Plan>, counts: seq<nat>, op: Op, i: nat): (j: nat)
    requires |counts| == |plans| && i <= |plans|
    ensures i <= j <= |plans|
    ensures j < |plans| ==> plans[j].op == op && counts[j] in plans[j].at
    ensures forall k :: i <= k < j ==> plans[k].op != op || counts[k] !in plans[k].at
    decreases |plans| - i
  {
    if i == |plans| || (plans[i].op == op && counts[i] in plans[i].at) then i else Due(plans, counts, op, i + 1)
  }

  /** Matching plans up to the one that fires have seen one more call. */
  function Counted(plans: seq<Plan>, counts: seq<nat>, op: Op): (c: seq<nat>)
    requires |counts| == |plans|
    ensures |c| == |plans|
  {
    var j := Due(plans, counts, op, 0);
    seq(|plans|, i requires 0 <= i < |plans| => if plans[i].op == op && i <= j then counts[i] + 1 else counts[i])
  }

  function CountsAfter(plans: seq<Plan>, calls: seq<Op>): (c: seq<nat>)
    ensures |c| == |plans|
    decreases |calls|
  {
    if calls == [] then seq(|plans|, _ => 0)
    else Counted(plans, CountsAfter(plans, calls[..|calls| - 1]), calls[|calls| - 1])
  }

  /** The fate of the last of a run of calls. */
  function FateOfLast(plans: seq<Plan>, calls: seq<Op>): (r: Fault)
    requires calls != []
  {
    var j := Due(plans, CountsAfter(plans, calls[..|calls| - 1]), calls[|calls| - 1], 0);
    if j < |plans| then plans[j].fault else Pass
  }

  // ---------- The injector ----------

  predicate Increasing(s: seq<nat>) {
    forall i, j :: 0 <= i < j < |s| ==> s[i] < s[j]
  }

  /** Sorts and drops duplicates. */
  function SortedUnique(s: seq<nat>): (r: seq<nat>)
    ensures Increasing(r) && forall x :: x in r <==> x in s
  {
    if s == [] then [] else InsertUnique(s[0], SortedUnique(s[1..]))
  }

  function InsertUnique(x: nat, s: seq<nat>): (r: seq<nat>)
    requires Increasing(s)
    ensures Increasing(r) && forall y :: y in r <==> y == x || y in s
  {
    if s == [] || x < s[0] then [x] + s
    else if x == s[0] then s
    else
      var rest := InsertUnique(x, s[1..]);
      assert forall y :: y in s <==> y == s[0] || y in s[1..];
      assert forall y :: y in rest ==> s[0] < y;
      assert forall i :: 0 <= i < |rest| ==> rest[i] in rest;
      [s[0]] + rest
  }

  /** Exactly the scheduled indexes not yet passed, in order. */
  ghost predicate Pending(p: Plan, s: Progress) {
    && Increasing(s.remaining)
    && (forall x :: x in s.remaining <==> x in p.at && x >= s.count)
    && s.fired + |s.remaining| == |SortedUnique(p.at)|
  }

  class Injector {
    const plans: seq<Plan>
    var progress: seq<Progress>
    ghost var calls: seq<Op>

    ghost predicate Valid()
      reads this
    {
      && |progress| == |plans|
      && (forall i :: 0 <= i < |plans| ==> Pending(plans[i], progress[i]))
      && (forall i :: 0 <= i < |plans| ==> progress[i].count == CountsAfter(plans, calls)[i])
    }

    constructor (plans: seq<Plan>)
      ensures Valid() && this.plans == plans && calls == []
    {
      this.plans := plans;
      progress := seq(|plans|, i requires 0 <= i < |plans| => Progress(0, SortedUnique(plans[i].at), 0));
      calls := [];
    }

    /** Decides one call's fate: exactly the fault the schedule gives this call. */
    method Check(op: Op) returns (r: Fault)
      requires Valid()
      modifies this`progress, this`calls
      ensures Valid() && calls == old(calls) + [op]
      ensures r == FateOfLast(plans, calls)
    {
      hide Pending, CountsAfter;
      ghost var counts := CountsAfter(plans, calls);
      ghost var due := Due(plans, counts, op, 0);
      ghost var was := progress;
      calls := calls + [op];
      assert calls[..|calls| - 1] == old(calls);
      ghost var next := Counted(plans, counts, op);
      assert CountsAfter(plans, calls) == next by { OneMore(plans, old(calls), op); }
      var i := 0;
      while i < |plans|
        invariant i <= due && |progress| == |plans| && calls == old(calls) + [op]
        invariant forall k :: 0 <= k < i ==>
          Pending(plans[k], progress[k]) && progress[k].count == next[k]
        invariant forall k :: i <= k < |plans| ==> progress[k] == was[k]
        decreases |plans| - i
      {
        var plan, state := plans[i], progress[i];
        if plan.op == op {
          var thisCall := state.count;
          state := state.(count := state.count + 1);
          if state.remaining != [] && state.remaining[0] == thisCall {
            Fires(plan, progress[i]);
            assert due == i;
            progress := progress[i := state.(remaining := state.remaining[1..], fired := state.fired + 1)];
            return plan.fault;
          }
          Passes(plan, progress[i]);
          progress := progress[i := state];
        }
        i := i + 1;
      }
      return Pass;
    }
  }

  lemma OneMore(plans: seq<Plan>, calls: seq<Op>, op: Op)
    ensures CountsAfter(plans, calls + [op]) == Counted(plans, CountsAfter(plans, calls), op)
  {
    assert (calls + [op])[..|calls|] == calls;
  }

  /** The head of the remaining indexes is the next one due. */
  lemma Fires(p: Plan, s: Progress)
    requires Pending(p, s) && s.remaining != [] && s.remaining[0] == s.count
    ensures s.count in p.at
    ensures Pending(p, Progress(s.count + 1, s.remaining[1..], s.fired + 1))
  {
    assert s.remaining == [s.count] + s.remaining[1..];
    assert s.remaining[0] in s.remaining;
  }

  lemma Passes(p: Plan, s: Progress)
    requires Pending(p, s) && (s.remaining == [] || s.remaining[0] != s.count)
    ensures s.count !in p.at
    ensures Pending(p, Progress(s.count + 1, s.remaining, s.fired))
  {
    assert s.remaining != [] ==> s.remaining[0] in s.remaining;
  }

  // ---------- What a schedule means over whole runs ----------

  /** How many of the calls have the operation. */
  function Calls(calls: seq<Op>, op: Op): nat
    decreases |calls|
  {
    if calls == [] then 0 else Calls(calls[..|calls| - 1], op) + if calls[|calls| - 1] == op then 1 else 0
  }

  /** A single plan counts every call of its operation. */
  lemma {:induction false} OnePlanCounts(p: Plan, calls: seq<Op>)
    ensures CountsAfter([p], calls) == [Calls(calls, p.op)]
    decreases |calls|
  {
    if calls != [] {
      OnePlanCounts(p, calls[..|calls| - 1]);
    }
  }

  /** A single plan fails the n-th call of its operation exactly when n is scheduled. */
  lemma OnePlanFiresAsScheduled(p: Plan, calls: seq<Op>, op: Op)
    ensures FateOfLast([p], calls + [op]) == if op == p.op && Calls(calls, op) in p.at then p.fault else Pass
  {
    OnePlanCounts(p, calls);
    assert (calls + [op])[..|calls|] == calls;
    assert Due([p], CountsAfter([p], calls), op, 0) == if op == p.op && Calls(calls, op) in p.at then 0 else 1;
  }

  // A plan's count and firing depend on the plans before it and itself only.

  lemma {:induction false} DueBefore(plans: seq<Plan>, counts: seq<nat>, op: Op, n: nat, i: nat)
    requires |counts| == |plans| && i <= n <= |plans|
    ensures Due(plans[..n], counts[..n], op, i) == Min(Due(plans, counts, op, i), n)
    decreases n - i
  {
    if i < n {
      assert plans[..n][i] == plans[i] && counts[..n][i] == counts[i];
      if !(plans[i].op == op && counts[i] in plans[i].at) {
        DueBefore(plans, counts, op, n, i + 1);
      }
    }
  }

  lemma {:induction false} CountsBefore(plans: seq<Plan>, calls: seq<Op>, n: nat)
    requires n <= |plans|
    ensures CountsAfter(plans[..n], calls) == CountsAfter(plans, calls)[..n]
    decreases |calls|
  {
    if calls != [] {
      var init, op := calls[..|calls| - 1], calls[|calls| - 1];
      CountsBefore(plans, init, n);
      DueBefore(plans, CountsAfter(plans, init), op, n, 0);
    }
  }

  /** How many calls of its operation the plans before plan `i` let pass. */
  function Survivors(plans: seq<Plan>, calls: seq<Op>, i: nat): nat
    requires i < |plans|
    decreases |calls|
  {
    if calls == [] then 0
    else
      var seen := calls[|calls| - 1] == plans[i].op && FateOfLast(plans[..i], calls) == Pass;
      Survivors(plans, calls[..|calls| - 1], i) + if seen then 1 else 0
  }

  /** Over every run of calls, a plan's count is the number of calls of its operation that the plans
      before it, taken alone, let pass. */
  lemma {:induction false} LaterPlansCountSurvivors(plans: seq<Plan>, calls: seq<Op>, i: nat)
    requires i < |plans|
    ensures CountsAfter(plans, calls)[i] == Survivors(plans, calls, i)
    decreases |calls|
  {
    if calls != [] {
      var init, op := calls[..|calls| - 1], calls[|calls| - 1];
      LaterPlansCountSurvivors(plans, init, i);
      CountsBefore(plans, init, i);
      DueBefore(plans, CountsAfter(plans, init), op, i, 0);
    }
  }

  /** And it fails a call exactly when they let it pass, it matches and that number is scheduled. */
  lemma PlanFiresExactly(plans: seq<Plan>, calls: seq<Op>, op: Op, i: nat)
    requires i < |plans|
    ensures Due(plans, CountsAfter(plans, calls), op, 0) == i
       <==> && FateOfLast(plans[..i], calls + [op]) == Pass
            && op == plans[i].op && Survivors(plans, calls, i) in plans[i].at
  {
    LaterPlansCountSurvivors(plans, calls, i);
    CountsBefore(plans, calls, i);
    DueBefore(plans, CountsAfter(plans, calls), op, i, 0);
    assert (calls + [op])[..|calls|] == calls;
  }
}
