/** The conditional write that survives lost replies: retry what never left, look again when the
    outcome is unknown, and report only what the store proves. The environment may interleave
    other writers' put-if-absent calls and fail any call in the injector's three ways. */
module Resolver {
  import opened Wrappers
  import opened Bytes
  import opened Budget
  import opened Records
  import opened RecordTheorems

  /** What happens around one store call: another writer's put to the same key just before it,
      and the call's own fate. */
  datatype Turn = Turn(other: Option<seq<byte>>, fault: Fault)

  datatype Reply<+T> = Answer(value: T) | Transport | Unknown
  datatype Put = PutCommitted | PutRejected
  datatype Resolved = Committed | Lost | NotCommitted
  datatype Failure = BudgetExhausted | TransportExhausted | Absent
  datatype Result<+T> = Ok(value: T) | Err(error: Failure)

  const RETRY_TRANSPORT_MAX: nat := 4

  /** How many of the turns lose a call or its reply. */
  function Faults(turns: seq<Turn>): nat {
    if turns == [] then 0 else (if turns[0].fault.Pass? then 0 else 1) + Faults(turns[1..])
  }

  /** One key of the store as this writer reaches it, with the turns still to come. */
  class Channel {
    var held: Option<seq<byte>>
    var turns: seq<Turn>
    /** How many of this writer's puts took effect, and how many calls it made. */
    ghost var effects: nat
    ghost var puts: nat
    ghost var calls: nat

    constructor (held: Option<seq<byte>>, turns: seq<Turn>)
      ensures this.held == held && this.turns == turns && effects == 0 && puts == 0 && calls == 0
    {
      this.held, this.turns := held, turns;
      effects, puts, calls := 0, 0, 0;
    }

    /** Nothing is deleted: a held key keeps its body. */
    twostate predicate Kept()
      reads this
    {
      old(held).Some? ==> held == old(held)
    }

    method Begin() returns (fault: Fault)
      modifies this
      ensures Kept() && effects == old(effects) && puts == old(puts) && calls == old(calls) + 1
      ensures Faults(old(turns)) == Faults(turns) + if fault.Pass? then 0 else 1
    {
      calls := calls + 1;
      fault := Pass;
      if turns != [] {
        if held.None? {
          held := turns[0].other;
        }
        fault := turns[0].fault;
        turns := turns[1..];
      }
    }

    method PutIfAbsent(body: seq<byte>) returns (r: Reply<Put>)
      modifies this
      ensures Kept() && puts == old(puts) + 1 && calls == old(calls) + 1
      ensures effects == old(effects) || (effects == old(effects) + 1 && old(held).None? && held == Some(body))
      ensures r.Transport? ==> effects == old(effects)
      ensures r.Answer? && r.value.PutCommitted? ==> effects == old(effects) + 1
      ensures r.Answer? && r.value.PutRejected? ==> held.Some? && effects == old(effects)
      ensures Faults(old(turns)) == Faults(turns) + if r.Answer? then 0 else 1
    {
      var fault := Begin();
      puts := puts + 1;
      if fault.PreTransmit? {
        return Transport;
      } else if fault.PostTransmit? {
        return Unknown;
      }
      var outcome := PutRejected;
      if held.None? {
        held := Some(body);
        effects := effects + 1;
        outcome := PutCommitted;
      }
      r := if fault.PostTransmitAfter? then Unknown else Answer(outcome);
    }

    method Head() returns (r: Reply<bool>)
      modifies this
      ensures Kept() && effects == old(effects) && puts == old(puts) && calls == old(calls) + 1
      ensures r.Answer? ==> r.value == held.Some?
      ensures Faults(old(turns)) == Faults(turns) + if r.Answer? then 0 else 1
    {
      var fault := Begin();
      r := if fault.Pass? then Answer(held.Some?) else if fault.PreTransmit? then Transport else Unknown;
    }

    method Get() returns (r: Reply<Option<seq<byte>>>)
      modifies this
      ensures Kept() && effects == old(effects) && puts == old(puts) && calls == old(calls) + 1
      ensures r.Answer? ==> r.value == held
      ensures Faults(old(turns)) == Faults(turns) + if r.Answer? then 0 else 1
    {
      var fault := Begin();
      r := if fault.Pass? then Answer(held) else if fault.PreTransmit? then Transport else Unknown;
    }

    /** A full read, retried while it fails in transport. */
    method ReadRetrying(budget: OpBudget) returns (r: Result<seq<byte>>)
      modifies this, budget
      ensures Kept() && effects == old(effects) && puts == old(puts)
      ensures budget.ops <= old(budget.ops) && calls + budget.ops == old(calls) + old(budget.ops)
      ensures r == Err(BudgetExhausted) ==> budget.ops == 0
      ensures Faults(turns) <= Faults(old(turns))
      ensures r == Err(TransportExhausted) ==> Faults(old(turns)) > RETRY_TRANSPORT_MAX
      ensures r.Ok? ==> held == Some(r.value)
      ensures old(held).Some? ==> r != Err(Absent)
    {
      var retries := 0;
      while true
        invariant Kept() && effects == old(effects) && puts == old(puts)
        invariant Faults(turns) + retries <= Faults(old(turns))
        invariant budget.ops <= old(budget.ops) && calls + budget.ops == old(calls) + old(budget.ops)
        decreases budget.ops
      {
        var ok := budget.Spend();
        if !ok {
          return Err(BudgetExhausted);
        }
        var reply := Get();
        match reply {
          case Answer(body) => return if body.Some? then Ok(body.value) else Err(Absent);
          case _ =>
            retries := retries + 1;
            if retries > RETRY_TRANSPORT_MAX {
              return Err(TransportExhausted);
            }
        }
      }
    }

    /** Looks again after an unknown outcome: absent means the write never happened, present means
        somebody committed, and the record decides who. */
    method ResolveUnknown(sha: Hash, intended: Record, q: Bytes16, tag: Bytes8, budget: OpBudget)
      returns (r: Result<Resolved>)
      modifies this, budget
      ensures Kept() && effects == old(effects) && puts == old(puts)
      ensures budget.ops <= old(budget.ops) && calls + budget.ops == old(calls) + old(budget.ops)
      ensures r == Err(BudgetExhausted) ==> budget.ops == 0
      ensures Faults(turns) <= Faults(old(turns))
      ensures r == Err(TransportExhausted) ==> Faults(old(turns)) > RETRY_TRANSPORT_MAX
      ensures r.Ok? && r.value.Committed? ==> held == Some(ValueEncode(sha, intended, q, tag))
      ensures r.Ok? && r.value.Lost? ==> held.Some? && ValueDecode(sha, held.value, q, tag) != Some(intended)
      ensures r.Ok? && r.value.NotCommitted? ==> old(held).None?
      ensures r != Err(Absent)
    {
      hide ValueDecode, ValueEncode;
      var retries := 0;
      while true
        invariant Kept() && effects == old(effects) && puts == old(puts)
        invariant Faults(turns) + retries <= Faults(old(turns))
        invariant budget.ops <= old(budget.ops) && calls + budget.ops == old(calls) + old(budget.ops)
        decreases budget.ops
      {
        var ok := budget.Spend();
        if !ok {
          return Err(BudgetExhausted);
        }
        var reply := Head();
        match reply {
          case Answer(present) =>
            if !present {
              return Ok(NotCommitted);
            }
            var body := ReadRetrying(budget);
            if body.Err? {
              return Err(body.error);
            }
            var found := ValueDecode(sha, body.value, q, tag);
            if found == Some(intended) {
              RecordReencodes(sha, body.value, q, tag);
              return Ok(Committed);
            }
            return Ok(Lost);
          case _ =>
            retries := retries + 1;
            if retries > RETRY_TRANSPORT_MAX {
              return Err(TransportExhausted);
            }
        }
      }
    }

    /** The write itself. `Committed` means the key holds exactly the intended record. `Lost` means
        the key is held and, for a well-formed record, none of this call's puts took effect.
        `NotCommitted` is never returned, at most five puts are sent, every call is paid for, and only a
        dry budget or more than four lost replies end it without an answer. */
    method PutResolving(sha: Hash, intended: Record, q: Bytes16, tag: Bytes8, budget: OpBudget)
      returns (r: Result<Resolved>)
      modifies this, budget
      ensures Kept()
      ensures r.Ok? && r.value.Committed? ==> held == Some(ValueEncode(sha, intended, q, tag))
      ensures r.Ok? && r.value.Lost? ==> held.Some? && (WellFormed(intended) ==> effects == old(effects))
      ensures r.Ok? ==> !r.value.NotCommitted?
      ensures r != Err(Absent)
      ensures old(effects) <= effects <= old(effects) + 1
      ensures effects > old(effects) ==> held == Some(ValueEncode(sha, intended, q, tag))
      ensures puts <= old(puts) + RETRY_TRANSPORT_MAX + 1
      ensures budget.ops <= old(budget.ops) && calls + budget.ops == old(calls) + old(budget.ops)
      ensures r == Err(BudgetExhausted) ==> budget.ops == 0
      ensures Faults(turns) <= Faults(old(turns))
      ensures r == Err(TransportExhausted) ==> Faults(old(turns)) > RETRY_TRANSPORT_MAX
    {
      hide ValueDecode, ValueEncode, WellFormed;
      var body := ValueEncode(sha, intended, q, tag);
      var retries := 0;
      while true
        invariant Kept() && effects == old(effects) && puts == old(puts) + retries && retries <= RETRY_TRANSPORT_MAX
        invariant Faults(turns) + retries <= Faults(old(turns))
        invariant budget.ops <= old(budget.ops) && calls + budget.ops == old(calls) + old(budget.ops)
        decreases budget.ops
      {
        var ok := budget.Spend();
        if !ok {
          return Err(BudgetExhausted);
        }
        var reply := PutIfAbsent(body);
        match reply {
          case Answer(put) => return Ok(if put.PutCommitted? then Committed else Lost);
          case Transport =>
          case Unknown =>
            RecordRoundTrip(sha, intended, q, tag);
            var resolved := ResolveUnknown(sha, intended, q, tag, budget);
            if resolved.Err? || !resolved.value.NotCommitted? {
              return resolved;
            }
        }
        retries := retries + 1;
        if retries > RETRY_TRANSPORT_MAX {
          return Err(TransportExhausted);
        }
      }
    }
  }
}
