/** The operation budget: one unit per store call, split into children for concurrent probes and
    refunded when they are done. */
module Budget {
  function Sum(s: seq<nat>): nat {
    if s == [] then 0 else s[0] + Sum(s[1..])
  }

  lemma {:induction false} SumAppends(s: seq<nat>, t: seq<nat>)
    ensures Sum(s + t) == Sum(s) + Sum(t)
  {
    if s == [] {
      assert s + t == t;
    } else {
      assert (s + t)[1..] == s[1..] + t;
      SumAppends(s[1..], t);
    }
  }

  lemma SumUpdates(s: seq<nat>, i: nat, n: nat)
    requires i < |s|
    ensures Sum(s[i := n]) == Sum(s) - s[i] + n
  {
    assert s == s[..i] + ([s[i]] + s[i + 1..]);
    assert s[i := n] == s[..i] + ([n] + s[i + 1..]);
    SumAppends(s[..i], [s[i]] + s[i + 1..]);
    SumAppends(s[..i], [n] + s[i + 1..]);
  }

  lemma {:induction false} SumOfEqual(s: seq<nat>, each: nat)
    requires forall i :: 0 <= i < |s| ==> s[i] == each
    ensures Sum(s) == |s| * each
  {
    if s != [] {
      SumOfEqual(s[1..], each);
      assert |s| * each == each + (|s| - 1) * each;
    }
  }

  class OpBudget {
    var ops: nat

    constructor (n: nat)
      ensures ops == n
    {
      ops := n;
    }

    /** One unit, unless the budget is dry. */
    method Spend() returns (ok: bool)
      modifies this
      ensures ok == (old(ops) > 0)
      ensures ops == if ok then old(ops) - 1 else old(ops)
    {
      if ops == 0 {
        return false;
      }
      ops := ops - 1;
      return true;
    }

    /** Equal shares for `n` children; the remainder of the division stays here. */
    method Split(n: nat) returns (children: array<nat>)
      modifies this
      ensures fresh(children) && children.Length == n
      ensures n > 0 ==> ops == old(ops) % n && forall i :: 0 <= i < n ==> children[i] == old(ops) / n
      ensures ops + Sum(children[..]) == old(ops)
    {
      if n == 0 {
        children := new nat[0];
        return;
      }
      var each := ops / n;
      ops := ops - each * n;
      children := new nat[n](_ => each);
      SumOfEqual(children[..], each);
    }

    /** Takes back what the children did not spend. */
    method Merge(children: array<nat>)
      modifies this, children
      ensures ops == old(ops) + Sum(old(children[..]))
      ensures forall i :: 0 <= i < children.Length ==> children[i] == 0
    {
      ghost var all := children[..];
      for i := 0 to children.Length
        invariant ops + Sum(all[i..]) == old(ops) + Sum(all)
        invariant forall j :: 0 <= j < i ==> children[j] == 0
        invariant forall j :: i <= j < children.Length ==> children[j] == all[j]
      {
        assert all[i..][1..] == all[i + 1..];
        ops := ops + children[i];
        children[i] := 0;
      }
    }
  }
}
