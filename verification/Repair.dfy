/** The repair scan's terminal pass: both terminal prefixes of a shard are listed to the end, and
    the jobs found under both are reported. Over a quiescent store those are exactly the jobs with
    both terminal records, and each of them is a crossing of two guarded writes. */
module Repair {
  import opened Wrappers
  import opened Bytes
  import opened Budget
  import opened Keys
  import opened Listing
  import Protocol
  import ProtocolTheorems

  const PAGE: nat := 64

  function ReceiptsPrefix(shard: u16): Name {
    Ascii("receipts") + [SLASH] + HexWord(shard, 2) + [SLASH]
  }

  function DeadPrefix(shard: u16): Name {
    Ascii("dead") + [SLASH] + HexWord(shard, 2) + [SLASH]
  }

  /** The job a terminal key names. */
  function TerminalJob(name: Name): Option<Bytes16> {
    match Parse(name)
    case Some(Receipt(_, id)) => Some(id)
    case Some(Dead(_, id)) => Some(id)
    case _ => None
  }

  /** The jobs named by a listing; names that are no terminal keys are grammar findings. */
  function JobsNamed(names: seq<Name>): set<Bytes16> {
    set i | 0 <= i < |names| && TerminalJob(names[i]).Some? :: TerminalJob(names[i]).value
  }

  function Malformed(names: seq<Name>): set<Name> {
    set i | 0 <= i < |names| && TerminalJob(names[i]).None? :: names[i]
  }

  /** Lists a prefix to the end, or runs out of budget. */
  method ListAuthoritative(keys: seq<Name>, prefix: Name, budget: OpBudget) returns (r: Option<seq<Name>>)
    requires Ascending(keys)
    modifies budget
    ensures r.Some? ==> r.value == Matching(keys, prefix, None)
    ensures r.None? ==> budget.ops == 0
  {
    hide Ascending, Pages, Matching, PageOf;
    var out: seq<Name> := [];
    var after: Option<Name> := None;
    while true
      invariant out + Pages(keys, prefix, after, PAGE) == Pages(keys, prefix, None, PAGE)
      decreases budget.ops
    {
      var ok := budget.Spend();
      if !ok {
        return None;
      }
      var page := PageOf(keys, prefix, after, PAGE);
      PagesStep(keys, prefix, after);
      PagesConcatenate(keys, prefix, None, PAGE);
      assert out + (page.items + if page.next.None? then [] else Pages(keys, prefix, page.next, PAGE))
          == out + page.items + if page.next.None? then [] else Pages(keys, prefix, page.next, PAGE);
      out := out + page.items;
      if page.items == [] || page.next.None? {
        return Some(out);
      }
      after := page.next;
    }
  }

  lemma PagesStep(keys: seq<Name>, prefix: Name, after: Option<Name>)
    requires Ascending(keys)
    ensures var p := PageOf(keys, prefix, after, PAGE);
            Pages(keys, prefix, after, PAGE) == p.items + if p.next.None? then [] else Pages(keys, prefix, p.next, PAGE)
    ensures var p := PageOf(keys, prefix, after, PAGE); p.items == [] ==> p.next.None?
  {
    var p := PageOf(keys, prefix, after, PAGE);
    if p.next.Some? {
      MatchingContinues(keys, prefix, after, PAGE - 1);
    }
  }

  /** The jobs a listing names, and the names that name none. */
  method ReadTerminals(names: seq<Name>) returns (jobs: set<Bytes16>, malformed: set<Name>)
    ensures jobs == JobsNamed(names) && malformed == Malformed(names)
  {
    hide TerminalJob;
    jobs, malformed := {}, {};
    for i := 0 to |names|
      invariant jobs == JobsNamed(names[..i]) && malformed == Malformed(names[..i])
    {
      var prefix, longer := names[..i], names[..i + 1];
      assert forall k :: 0 <= k < i ==> longer[k] == prefix[k];
      assert longer[i] == names[i];
      match TerminalJob(names[i]) {
        case Some(id) => jobs := jobs + {id};
        case None => malformed := malformed + {names[i]};
      }
      assert JobsNamed(longer) == jobs;
      assert Malformed(longer) == malformed;
    }
    assert names[..|names|] == names;
  }

  /** The jobs listed under both terminal prefixes. */
  function Duplicates(keys: seq<Name>, shard: u16): set<Bytes16> {
    JobsNamed(Matching(keys, ReceiptsPrefix(shard), None)) * JobsNamed(Matching(keys, DeadPrefix(shard), None))
  }

  method DuplicateTerminals(keys: seq<Name>, shard: u16, budget: OpBudget) returns (r: Option<set<Bytes16>>)
    requires Ascending(keys)
    modifies budget
    ensures r.Some? ==> r.value == Duplicates(keys, shard)
    ensures r.None? ==> budget.ops == 0
  {
    var receipts := ListAuthoritative(keys, ReceiptsPrefix(shard), budget);
    if receipts.None? {
      return None;
    }
    var withReceipt, _ := ReadTerminals(receipts.value);
    var dead := ListAuthoritative(keys, DeadPrefix(shard), budget);
    if dead.None? {
      return None;
    }
    var withDead, _ := ReadTerminals(dead.value);
    return Some(withReceipt * withDead);
  }

  // ---------- What the report means ----------

  function Terminal(receipts: bool, shard: u16, id: Bytes16): Key {
    if receipts then Receipt(shard, id) else Dead(shard, id)
  }

  function PrefixOf(receipts: bool, shard: u16): Name {
    if receipts then ReceiptsPrefix(shard) else DeadPrefix(shard)
  }

  lemma FirstSegments(first: seq<byte>, second: seq<byte>, name: Name)
    requires Without(first, SLASH) && Without(second, SLASH) && first + [SLASH] + second + [SLASH] <= name
    ensures var p := Split(name, SLASH); |p| > 2 && p[0] == first && p[1] == second
  {
    var rest := name[|first| + |second| + 2..];
    assert name == first + [SLASH] + (second + [SLASH] + rest);
    SplitFirst(first, second + [SLASH] + rest, SLASH);
    SplitFirst(second, rest, SLASH);
  }

  /** A terminal key under a terminal prefix is that shard's terminal key of the job it names. */
  lemma NamedUnderPrefix(receipts: bool, shard: u16, name: Name)
    requires PrefixOf(receipts, shard) <= name && TerminalJob(name).Some?
    ensures name == Print(Terminal(receipts, shard, TerminalJob(name).value))
  {
    hide Hex, HexWord;
    var key := Parse(name).value;
    PrintInvertsParse(name);
    SegmentsArePlain(key);
    SplitInvertsJoin(Segments(key), SLASH);
    PrefixesArePlain();
    WordIsPlain(shard, 2);
    FirstSegments(if receipts then Ascii("receipts") else Ascii("dead"), HexWord(shard, 2), name);
    Prefixes();
    PowersOf256();
    HexWordRoundTrip(shard, 2);
    HexWordRoundTrip(key.shard, 2);
  }

  lemma PrefixOfTerminal(receipts: bool, shard: u16, id: Bytes16)
    ensures PrefixOf(receipts, shard) <= Print(Terminal(receipts, shard, id))
    ensures TerminalJob(Print(Terminal(receipts, shard, id))) == Some(id)
  {
    hide Parse, Hex, HexWord, Ascii;
    var key := Terminal(receipts, shard, id);
    ParseInvertsPrint(key);
    var first := if receipts then Ascii("receipts") else Ascii("dead");
    var parts := Segments(key);
    assert parts == [first, HexWord(shard, 2), Hex(id)];
    assert parts[1..] == [HexWord(shard, 2), Hex(id)] && parts[1..][1..] == [Hex(id)];
    assert Join(parts[1..], SLASH) == HexWord(shard, 2) + [SLASH] + Hex(id);
    assert Print(key) == first + [SLASH] + (HexWord(shard, 2) + [SLASH] + Hex(id));
    assert Print(key) == PrefixOf(receipts, shard) + Hex(id);
  }

  /** A job is named by a listing of its shard's terminal prefix exactly when that key is stored. */
  lemma NamedExactly(keys: seq<Name>, receipts: bool, shard: u16, id: Bytes16)
    ensures id in JobsNamed(Matching(keys, PrefixOf(receipts, shard), None)) <==>
              Print(Terminal(receipts, shard, id)) in keys
  {
    hide PrefixOf, Terminal, TerminalJob, Print, Matching;
    var prefix, name := PrefixOf(receipts, shard), Print(Terminal(receipts, shard, id));
    var names := Matching(keys, prefix, None);
    if id in JobsNamed(names) {
      var i :| 0 <= i < |names| && TerminalJob(names[i]) == Some(id);
      MatchingHolds(keys, prefix, None, names[i]);
      NamedUnderPrefix(receipts, shard, names[i]);
    }
    if name in keys {
      PrefixOfTerminal(receipts, shard, id);
      MatchingHolds(keys, prefix, None, name);
      var i :| 0 <= i < |names| && names[i] == name;
      assert TerminalJob(names[i]).Some?;
    }
  }

  /** The report names precisely the jobs with both terminal keys stored, whatever else is. */
  lemma DuplicatesAreExact(keys: seq<Name>, shard: u16, id: Bytes16)
    ensures id in Duplicates(keys, shard) <==> Print(Receipt(shard, id)) in keys && Print(Dead(shard, id)) in keys
  {
    hide JobsNamed, Print;
    NamedExactly(keys, true, shard, id);
    NamedExactly(keys, false, shard, id);
  }

  /** The text of the terminal keys a protocol store holds, each job in its own shard. */
  ghost predicate Spells(keys: seq<Name>, store: Protocol.Store, shardOf: Protocol.JobId -> u16,
                         idOf: Protocol.JobId -> Bytes16) {
    forall j ::
      && (Print(Receipt(shardOf(j), idOf(j))) in keys <==> Protocol.ReceiptKey(j) in store)
      && (Print(Dead(shardOf(j), idOf(j))) in keys <==> Protocol.DeadKey(j) in store)
  }

  /** Over any state of any run, the pass over a job's shard reports it precisely when it has both
      terminal records, and then both guard reads came before both writes. */
  lemma DuplicatesAreCrossings(cfg: Protocol.Config, states: seq<Protocol.State>, k: nat, keys: seq<Name>,
                               shardOf: Protocol.JobId -> u16, idOf: Protocol.JobId -> Bytes16, j: Protocol.JobId)
    requires Protocol.Run(cfg, states) && k < |states| && Spells(keys, states[k].store, shardOf, idOf)
    ensures idOf(j) in Duplicates(keys, shardOf(j)) <==> ProtocolTheorems.BothTerminals(states[k], j)
    ensures idOf(j) in Duplicates(keys, shardOf(j)) ==>
              && var stamps := states[k].stamps;
              && Protocol.ReceiptKey(j) in stamps && Protocol.DeadKey(j) in stamps
              && stamps[Protocol.ReceiptKey(j)].guard < stamps[Protocol.DeadKey(j)].put
              && stamps[Protocol.DeadKey(j)].guard < stamps[Protocol.ReceiptKey(j)].put
  {
    hide Duplicates, Print, Protocol.Run;
    DuplicatesAreExact(keys, shardOf(j), idOf(j));
    if ProtocolTheorems.BothTerminals(states[k], j) {
      ProtocolTheorems.TerminalsOnlyCross(cfg, states, k, j);
    }
  }
}
