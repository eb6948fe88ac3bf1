/** The lenient reading of terminal index entries: any bucket text, digits of either case and a
    leading plus sign are accepted, and every entry of the key grammar is read as the grammar does. */
module TermEntry {
  import opened Wrappers
  import opened Bytes
  import opened Keys
  import opened Listing
  import opened TailDiscovery

  const PLUS: byte := 43

  /** Unsigned digits with an optional plus sign, at least one digit. */
  function SignedRadix(s: seq<byte>): Option<nat> {
    var digits := if s != [] && s[0] == PLUS then s[1..] else s;
    if digits == [] then None else FromRadix(digits)
  }

  /** Bytes from pairs of such digits. */
  function FromPairs(s: seq<byte>): (r: Option<seq<byte>>)
    ensures r.Some? ==> 2 * |r.value| == |s|
  {
    if s == [] then Some([])
    else if |s| == 1 then None
    else
      match (SignedRadix(s[..2]), FromPairs(s[2..]))
      case (Some(b), Some(rest)) => if b < 256 then Some([b] + rest) else None
      case _ => None
  }

  datatype Entry = Entry(kind: TermKind, shard: u16, id: Bytes16)

  function FromParts(p: seq<seq<byte>>): Option<Entry>
    requires |p| >= 4
  {
    var job := Join(p[3..], SLASH);
    if |p[2]| != 4 || |job| != 32 || p[1] == [] || (p[1][0] != 'r' as nat && p[1][0] != 'd' as nat) then None
    else
      match (SignedRadix(p[2]), FromPairs(job))
      case (Some(shard), Some(id)) =>
        if shard >= 0x1_0000 then None
        else Some(Entry(if p[1][0] == 'r' as nat then TermReceipt else TermDead, shard, id))
      case _ => None
  }

  function ParseTermEntry(name: Name): Option<Entry> {
    var prefix := Ascii("termidx/");
    if !(prefix <= name) then None
    else
      var p := Split(name[|prefix|..], SLASH);
      if |p| < 4 then None else FromParts(p)
  }

  lemma DigitsAreSigned(b: seq<byte>)
    requires b != []
    ensures SignedRadix(Hex(b)) == Some(FromBigEndian(b))
  {
    RadixOfHex(b);
    assert Hex(b)[0] == Digit(b[0] / 16);
  }

  lemma {:induction false} PairsOfHex(b: seq<byte>)
    ensures FromPairs(Hex(b)) == Some(b)
  {
    if b != [] {
      PairsOfHex(b[1..]);
      assert Hex(b)[..2] == Hex([b[0]]) && Hex(b)[2..] == Hex(b[1..]);
      DigitsAreSigned([b[0]]);
      assert FromBigEndian([b[0]]) == b[0];
      assert b == [b[0]] + b[1..];
    }
  }

  /** Entries of the grammar are read as the grammar reads them. */
  lemma TermEntryParses(bucket: u64, kind: TermKind, shard: u16, id: Bytes16)
    ensures ParseTermEntry(Print(TermIndex(bucket, kind, shard, id))) == Some(Entry(kind, shard, id))
  {
    var p := [HexWord(bucket, 8), Kind(kind), HexWord(shard, 2), Hex(id)];
    var name := Print(TermIndex(bucket, kind, shard, id));
    assert Segments(TermIndex(bucket, kind, shard, id))[1..] == p;
    assert name == Ascii("termidx") + [SLASH] + Join(p, SLASH);
    assert Ascii("termidx/") == Ascii("termidx") + [SLASH];
    assert name[|Ascii("termidx/")|..] == Join(p, SLASH);
    WordIsPlain(bucket, 8);
    WordIsPlain(shard, 2);
    HexIsPlain(id);
    SplitInvertsJoin(p, SLASH);
    PartsParse(p, kind, shard, id);
  }

  lemma PartsParse(p: seq<seq<byte>>, kind: TermKind, shard: u16, id: Bytes16)
    requires |p| == 4 && p[1] == Kind(kind) && p[2] == HexWord(shard, 2) && p[3] == Hex(id)
    ensures FromParts(p) == Some(Entry(kind, shard, id))
  {
    assert p[3..] == [p[3]];
    PowersOf256();
    BigEndianRoundTrip(shard, 2);
    DigitsAreSigned(BigEndian(shard, 2));
    PairsOfHex(id);
  }

  // ---------- Exactly which names are entries ----------

  /** The name is this bucket text, kind text, shard text and job text, and they read as the entry. */
  ghost predicate Spells(name: Name, bucket: seq<byte>, kind: seq<byte>, shard: seq<byte>, job: seq<byte>, e: Entry) {
    && Without(bucket, SLASH) && Without(kind, SLASH) && Without(shard, SLASH)
    && name == Ascii("termidx/") + (bucket + [SLASH] + (kind + [SLASH] + (shard + [SLASH] + job)))
    && kind != [] && kind[0] == (if e.kind.TermReceipt? then 'r' as nat else 'd' as nat)
    && |shard| == 4 && SignedRadix(shard) == Some(e.shard)
    && |job| == 32 && FromPairs(job) == Some(e.id)
  }

  lemma {:induction false} SplitIsPlain(s: seq<byte>, c: byte)
    ensures forall i :: 0 <= i < |Split(s, c)| ==> Without(Split(s, c)[i], c)
  {
    if s != [] {
      SplitIsPlain(s[1..], c);
      var rest := Split(s[1..], c);
      assert forall i :: 0 < i < |Split(s, c)| && s[0] != c ==> Split(s, c)[i] == rest[i];
    }
  }

  /** Any bucket text, a kind text that starts with its letter, four bytes of shard and 32 of job. */
  lemma EntryIsSpelled(name: Name, e: Entry)
    requires ParseTermEntry(name) == Some(e)
    ensures exists bucket, kind, shard, job :: Spells(name, bucket, kind, shard, job, e)
  {
    hide FromPairs, SignedRadix;
    var prefix := Ascii("termidx/");
    var rest := name[|prefix|..];
    var p := Split(rest, SLASH);
    SplitIsPlain(rest, SLASH);
    JoinInvertsSplit(rest, SLASH);
    assert p[1..][1..] == p[2..] && p[2..][1..] == p[3..];
    assert Join(p[2..], SLASH) == p[2] + [SLASH] + Join(p[3..], SLASH);
    assert Join(p[1..], SLASH) == p[1] + [SLASH] + Join(p[2..], SLASH);
    assert rest == p[0] + [SLASH] + Join(p[1..], SLASH);
    assert name == prefix + rest;
    assert Spells(name, p[0], p[1], p[2], Join(p[3..], SLASH), e);
  }

  lemma SpelledIsEntry(name: Name, bucket: seq<byte>, kind: seq<byte>, shard: seq<byte>, job: seq<byte>, e: Entry)
    requires Spells(name, bucket, kind, shard, job, e)
    ensures ParseTermEntry(name) == Some(e)
  {
    hide FromPairs, SignedRadix, Split;
    var prefix := Ascii("termidx/");
    var last := shard + [SLASH] + job;
    var middle := kind + [SLASH] + last;
    assert name[|prefix|..] == bucket + [SLASH] + middle;
    SplitFirst(bucket, middle, SLASH);
    SplitFirst(kind, last, SLASH);
    SplitFirst(shard, job, SLASH);
    JoinInvertsSplit(job, SLASH);
    var p := Split(name[|prefix|..], SLASH);
    assert p == [bucket] + ([kind] + ([shard] + Split(job, SLASH)));
    assert p[3..] == Split(job, SLASH);
  }

  /** So a name is an entry exactly when it is spelled so. */
  lemma TermEntryExactly(name: Name, e: Entry)
    ensures ParseTermEntry(name) == Some(e)
       <==> exists bucket, kind, shard, job :: Spells(name, bucket, kind, shard, job, e)
  {
    hide ParseTermEntry, Spells;
    if ParseTermEntry(name) == Some(e) {
      EntryIsSpelled(name, e);
    }
    if bucket, kind, shard, job :| Spells(name, bucket, kind, shard, job, e) {
      SpelledIsEntry(name, bucket, kind, shard, job, e);
    }
  }
}
