/** Tail discovery: a job's claim chain read off a paged listing while other workers may be
    extending it. Generations are read in either letter case and below any number of further
    segments, so string order and generation order can disagree; `Overtakes` says exactly where. */
module TailDiscovery {
  import opened Wrappers
  import opened Arithmetic
  import opened Bytes
  import opened Keys
  import opened Listing

  // ---------- Reading generations off keys ----------

  function AnyDigit(c: byte): Option<nat> {
    if 65 <= c <= 70 then Some(c - 55) else FromDigit(c)
  }

  /** Digits of either case, most significant first. */
  function FromRadix(s: seq<byte>): Option<nat> {
    if s == [] then Some(0)
    else
      match (FromRadix(s[..|s| - 1]), AnyDigit(s[|s| - 1]))
      case (Some(n), Some(d)) => Some(16 * n + d)
      case _ => None
  }

  /** The last segment, when it is eight hex digits of either case. */
  function ParseGeneration(k: Name): Option<nat> {
    var parts := Split(k, SLASH);
    var last := parts[|parts| - 1];
    if |last| == 8 then FromRadix(last) else None
  }

  lemma {:induction false} HexSnoc(b: seq<byte>, x: byte)
    ensures Hex(b + [x]) == Hex(b) + [Digit(x / 16), Digit(x % 16)]
  {
    if b == [] {
      assert b + [x] == [x] && [x][1..] == [];
    } else {
      assert (b + [x])[1..] == b[1..] + [x];
      HexSnoc(b[1..], x);
    }
  }

  lemma {:induction false} RadixOfHex(b: seq<byte>)
    ensures FromRadix(Hex(b)) == Some(FromBigEndian(b))
  {
    if b != [] {
      var init, x := b[..|b| - 1], b[|b| - 1];
      assert b == init + [x];
      RadixOfHex(init);
      HexSnoc(init, x);
      var s := Hex(b);
      assert s[..|s| - 1] == Hex(init) + [Digit(x / 16)];
      assert s[..|s| - 1][..|s| - 2] == Hex(init);
      assert FromRadix(s[..|s| - 1]) == Some(16 * FromBigEndian(init) + x / 16);
    }
  }

  lemma {:induction false} LastSegment(p: seq<byte>, w: seq<byte>)
    requires Without(w, SLASH)
    ensures var parts := Split(p + [SLASH] + w, SLASH); |parts| > 1 && parts[|parts| - 1] == w
  {
    var s := p + [SLASH] + w;
    if p == [] {
      assert s[1..] == w;
      SplitPlain(w, SLASH);
    } else {
      assert s[1..] == p[1..] + [SLASH] + w;
      LastSegment(p[1..], w);
    }
  }

  /** A key of the grammar directly under a claims prefix. */
  predicate IsClaimKey(prefix: Name, k: Name) {
    prefix <= k && FromHexWord(k[|prefix|..], 4).Some?
  }

  function Generation(prefix: Name, k: Name): nat
    requires IsClaimKey(prefix, k)
  {
    FromHexWord(k[|prefix|..], 4).value
  }

  ghost predicate EndsWithSlash(prefix: Name) {
    prefix != [] && prefix[|prefix| - 1] == SLASH
  }

  /** Tail discovery reads a claim key's generation as the grammar does. */
  lemma ClaimKeyParses(prefix: Name, k: Name)
    requires EndsWithSlash(prefix) && IsClaimKey(prefix, k)
    ensures ParseGeneration(k) == Some(Generation(prefix, k))
  {
    var p, w := prefix[..|prefix| - 1], k[|prefix|..];
    assert k == p + [SLASH] + w;
    FromHexWordRoundTrip(w, 4);
    var g := Generation(prefix, k);
    WordIsPlain(g, 4);
    LastSegment(p, w);
    RadixOfHex(BigEndian(g, 4));
    BigEndianRoundTrip(g, 4);
  }

  /** Claim keys under one prefix sort by generation. */
  lemma ClaimKeysOrder(prefix: Name, k: Name, l: Name)
    requires IsClaimKey(prefix, k) && IsClaimKey(prefix, l)
    ensures Less(k, l) <==> Generation(prefix, k) < Generation(prefix, l)
  {
    var w, x := k[|prefix|..], l[|prefix|..];
    assert k == prefix + w && l == prefix + x;
    FromHexWordRoundTrip(w, 4);
    FromHexWordRoundTrip(x, 4);
    LessAfterPrefix(prefix, w, x);
    HexWordOrder(Generation(prefix, k), Generation(prefix, l), 4);
  }

  // ---------- Where string order and generation order disagree ----------

  predicate Parses(k: Name) {
    ParseGeneration(k).Some?
  }

  predicate Upper(c: byte) {
    65 <= c <= 70
  }

  predicate Lower(c: byte) {
    97 <= c <= 102
  }

  function Pow16(w: nat): (p: nat)
    ensures p > 0
  {
    if w == 0 then 1 else 16 * Pow16(w - 1)
  }

  lemma Regroup(n: nat, p: nat)
    ensures n * (16 * p) == 16 * (n * p)
  {}

  lemma {:induction false} RadixSplits(a: seq<byte>, b: seq<byte>)
    requires FromRadix(a + b).Some?
    ensures FromRadix(a).Some? && FromRadix(b).Some? && FromRadix(b).value < Pow16(|b|)
    ensures FromRadix(a + b).value == FromRadix(a).value * Pow16(|b|) + FromRadix(b).value
    decreases |b|
  {
    if b == [] {
      assert a + b == a;
    } else {
      var init, c := b[..|b| - 1], b[|b| - 1];
      assert (a + b)[..|a + b| - 1] == a + init && (a + b)[|a + b| - 1] == c;
      RadixSplits(a, init);
      Regroup(FromRadix(a).value, Pow16(|init|));
    }
  }

  /** The first byte at which a string and a greater one of its length differ. */
  lemma {:induction false} FirstDifference(a: seq<byte>, b: seq<byte>) returns (i: nat)
    requires |a| == |b| && Less(a, b)
    ensures i < |a| && a[..i] == b[..i] && a[i] < b[i]
  {
    if a[0] < b[0] {
      i := 0;
    } else {
      var j := FirstDifference(a[1..], b[1..]);
      i := j + 1;
      assert a[..i] == [a[0]] + a[1..][..j] && b[..i] == [b[0]] + b[1..][..j];
    }
  }

  /** At their first differing byte one has an upper-case letter where the other has a lower-case
      one, and its digits from there on denote the greater number. */
  predicate CrossesAt(a: seq<byte>, b: seq<byte>, i: nat) {
    && i < |a| && i < |b| && a[..i] == b[..i] && Upper(a[i]) && Lower(b[i])
    && FromRadix(a[i..]).Some? && FromRadix(b[i..]).Some? && FromRadix(a[i..]).value > FromRadix(b[i..]).value
  }

  /** With a common beginning, the numbers compare as the digits behind it. */
  lemma CommonDigits(a: seq<byte>, b: seq<byte>, i: nat)
    requires |a| == |b| && i <= |a| && FromRadix(a[..i]) == FromRadix(b[..i])
    requires FromRadix(a).Some? && FromRadix(b).Some?
    ensures FromRadix(a[i..]).Some? && FromRadix(b[i..]).Some?
    ensures FromRadix(a).value > FromRadix(b).value <==> FromRadix(a[i..]).value > FromRadix(b[i..]).value
  {
    assert a == a[..i] + a[i..] && b == b[..i] + b[i..];
    RadixSplits(a[..i], a[i..]);
    RadixSplits(b[..i], b[i..]);
  }

  /** A smaller leading digit makes a smaller number. */
  lemma LeadingDigit(a: seq<byte>, b: seq<byte>)
    requires |a| == |b| > 0 && FromRadix(a).Some? && FromRadix(b).Some?
    ensures AnyDigit(a[0]).Some? && AnyDigit(b[0]).Some?
    ensures AnyDigit(a[0]).value < AnyDigit(b[0]).value ==> FromRadix(a).value < FromRadix(b).value
  {
    var p := Pow16(|a| - 1);
    assert a == [a[0]] + a[1..] && b == [b[0]] + b[1..];
    RadixSplits([a[0]], a[1..]);
    RadixSplits([b[0]], b[1..]);
    assert [a[0]][..0] == [] && [b[0]][..0] == [];
    var x, y := AnyDigit(a[0]).value, AnyDigit(b[0]).value;
    if x < y {
      Apart(x, y, p);
    }
  }

  lemma DigitsCross(a: seq<byte>, b: seq<byte>)
    requires |a| == |b| && FromRadix(a).Some? && FromRadix(b).Some? && Less(a, b)
    ensures FromRadix(a).value > FromRadix(b).value <==> exists i :: CrossesAt(a, b, i)
  {
    if FromRadix(a).value > FromRadix(b).value {
      var i := FirstDifference(a, b);
      CommonDigits(a, b, i);
      LeadingDigit(a[i..], b[i..]);
      assert CrossesAt(a, b, i);
    }
    if i :| CrossesAt(a, b, i) {
      CommonDigits(a, b, i);
    }
  }

  /** The digits agree in value before `i`, whatever their case, and at `i` the first has the greater. */
  predicate BeatsAt(a: seq<byte>, b: seq<byte>, i: nat) {
    && i < |a| && i < |b| && (forall k :: 0 <= k < i ==> AnyDigit(a[k]) == AnyDigit(b[k]))
    && AnyDigit(a[i]).Some? && AnyDigit(b[i]).Some? && AnyDigit(a[i]).value > AnyDigit(b[i]).value
  }

  lemma {:induction false} SameDigits(a: seq<byte>, b: seq<byte>)
    requires |a| == |b| && forall k :: 0 <= k < |a| ==> AnyDigit(a[k]) == AnyDigit(b[k])
    ensures FromRadix(a) == FromRadix(b)
  {
    if a != [] {
      SameDigits(a[..|a| - 1], b[..|b| - 1]);
    }
  }

  /** Where digits first differ in value decides which number is the greater. */
  lemma DecidedAt(a: seq<byte>, b: seq<byte>, i: nat)
    requires |a| == |b| && FromRadix(a).Some? && FromRadix(b).Some? && BeatsAt(a, b, i)
    ensures FromRadix(a).value > FromRadix(b).value
  {
    hide FromRadix, AnyDigit;
    SameDigits(a[..i], b[..i]);
    CommonDigits(a, b, i);
    LeadingDigit(b[i..], a[i..]);
  }

  lemma {:induction false} FirstDigits(a: seq<byte>, b: seq<byte>, i: nat) returns (j: nat)
    requires |a| == |b| && i <= |a| && FromRadix(a).Some? && FromRadix(b).Some?
    requires forall k :: 0 <= k < i ==> AnyDigit(a[k]) == AnyDigit(b[k])
    ensures j == |a| || BeatsAt(a, b, j) || BeatsAt(b, a, j)
    ensures j == |a| ==> forall k :: 0 <= k < |a| ==> AnyDigit(a[k]) == AnyDigit(b[k])
    decreases |a| - i
  {
    if i == |a| {
      j := i;
    } else if AnyDigit(a[i]) == AnyDigit(b[i]) {
      j := FirstDigits(a, b, i + 1);
    } else {
      SameDigits(a[..i], b[..i]);
      CommonDigits(a, b, i);
      LeadingDigit(a[i..], b[i..]);
      j := i;
    }
  }

  lemma DigitsCompare(a: seq<byte>, b: seq<byte>)
    requires |a| == |b| && FromRadix(a).Some? && FromRadix(b).Some?
    ensures FromRadix(a).value > FromRadix(b).value <==> exists i :: BeatsAt(a, b, i)
  {
    var j := FirstDigits(a, b, 0);
    if j == |a| {
      SameDigits(a, b);
    } else if BeatsAt(b, a, j) {
      DecidedAt(b, a, j);
    }
    if i :| BeatsAt(a, b, i) {
      DecidedAt(a, b, i);
    }
  }

  /** A key that parses is some stem and eight digits. */
  function Stem(k: Name): Name
    requires |k| >= 8
  {
    k[..|k| - 8]
  }

  function Digits(k: Name): Name
    requires |k| >= 8
  {
    k[|k| - 8..]
  }

  lemma {:induction false} LastIsSuffix(s: seq<byte>, c: byte) returns (p: seq<byte>)
    ensures var parts := Split(s, c); s == p + parts[|parts| - 1] && (|parts| == 1 ==> p == [])
  {
    p := [];
    if s != [] {
      var q := LastIsSuffix(s[1..], c);
      assert s == [s[0]] + s[1..];
      p := if |Split(s, c)| == 1 then [] else [s[0]] + q;
    }
  }

  lemma ParsedDigits(k: Name)
    requires Parses(k)
    ensures |k| >= 8 && ParseGeneration(k) == FromRadix(Digits(k))
  {
    hide FromRadix;
    var p := LastIsSuffix(k, SLASH);
    assert k[|p|..] == Digits(k);
  }

  /** `k`, though it does not sort after `l`, has the greater generation. Beside each other they
      cross in letter case; under different stems the order of the stems decides nothing, and the
      first digit that differs in value does. */
  ghost predicate Overtakes(k: Name, l: Name) {
    && |k| >= 8 && |l| >= 8
    && if Stem(k) == Stem(l) then exists i :: CrossesAt(Digits(k), Digits(l), i)
       else exists i :: BeatsAt(Digits(k), Digits(l), i)
  }

  lemma OvertakesExactly(k: Name, l: Name)
    requires Parses(k) && Parses(l) && !Less(l, k)
    ensures ParseGeneration(k).value > ParseGeneration(l).value <==> Overtakes(k, l)
  {
    ParsedDigits(k);
    ParsedDigits(l);
    if Stem(k) == Stem(l) {
      assert k == Stem(k) + Digits(k) && l == Stem(l) + Digits(l);
      LessTotal(k, l);
      LessAfterPrefix(Stem(k), Digits(k), Digits(l));
      if k != l {
        DigitsCross(Digits(k), Digits(l));
      }
    } else {
      DigitsCompare(Digits(k), Digits(l));
    }
  }

  /** Keys of the grammar under one prefix do not overtake each other. */
  lemma ClaimsDoNotOvertake(prefix: Name, k: Name, l: Name)
    requires EndsWithSlash(prefix) && IsClaimKey(prefix, k) && IsClaimKey(prefix, l) && !Less(l, k)
    ensures Parses(k) && Parses(l) && !Overtakes(k, l)
  {
    ClaimKeyParses(prefix, k);
    ClaimKeyParses(prefix, l);
    ClaimKeysOrder(prefix, l, k);
    OvertakesExactly(k, l);
  }

  // ---------- Tail discovery ----------

  /** The last key that parses, or the one already held. */
  function LastParsing(items: seq<Name>, tail: Option<Name>): Option<Name> {
    if items == [] then tail
    else if Parses(items[|items| - 1]) then Some(items[|items| - 1])
    else LastParsing(items[..|items| - 1], tail)
  }

  const PAGE: nat := 64

  /** The listing loop, one store state per call: the key whose generation is kept, or `None` when
      the calls run out. */
  function TailOver(snaps: seq<seq<Name>>, prefix: Name, after: Option<Name>, tail: Option<Name>): Option<Option<Name>>
    decreases |snaps|
  {
    if snaps == [] then None
    else
      var p := PageOf(snaps[0], prefix, after, PAGE);
      var t := LastParsing(p.items, tail);
      if p.next.None? then Some(t) else TailOver(snaps[1..], prefix, p.next, t)
  }

  /** The generation a tail key stands for. */
  function GenerationOf(tail: Option<Name>): Option<nat> {
    if tail.None? then None else ParseGeneration(tail.value)
  }

  /** Having listed `snaps`, the loop stands behind `after` with `tail` kept. */
  ghost predicate HasRead(snaps: seq<seq<Name>>, prefix: Name, after: Option<Name>, tail: Option<Name>) {
    forall more {:trigger snaps + more} ::
      TailOver(snaps + more, prefix, None, None) == TailOver(more, prefix, after, tail)
  }

  lemma NothingRead(prefix: Name)
    ensures HasRead([], prefix, None, None)
  {
    assert forall more: seq<seq<Name>> :: [] + more == more;
  }

  lemma PageRead(snaps: seq<seq<Name>>, keys: seq<Name>, prefix: Name, after: Option<Name>, tail: Option<Name>)
    requires HasRead(snaps, prefix, after, tail)
    ensures var p := PageOf(keys, prefix, after, PAGE);
            var t := LastParsing(p.items, tail);
            if p.next.None? then TailOver(snaps + [keys], prefix, None, None) == Some(t)
            else HasRead(snaps + [keys], prefix, p.next, t)
  {
    hide PageOf, LastParsing;
    forall more: seq<seq<Name>>
      ensures TailOver(snaps + [keys] + more, prefix, None, None) == TailOver([keys] + more, prefix, after, tail)
      ensures ([keys] + more)[0] == keys && ([keys] + more)[1..] == more
    {
      assert snaps + [keys] + more == snaps + ([keys] + more);
    }
    assert snaps + [keys] + [] == snaps + [keys];
  }

  // ---------- What the tail means ----------

  /** Keys appear and never disappear. */
  ghost predicate Growing(snaps: seq<seq<Name>>) {
    && (forall i :: 0 <= i < |snaps| ==> Ascending(snaps[i]))
    && (forall i, j, k :: 0 <= i <= j < |snaps| && k in snaps[i] ==> k in snaps[j])
  }

  /** A stored key whose generation tail discovery would read. */
  predicate Candidate(keys: seq<Name>, prefix: Name, k: Name) {
    k in keys && prefix <= k && Parses(k)
  }

  lemma {:induction false} LastIsGreatest(items: seq<Name>, tail: Option<Name>)
    requires Ascending(items)
    ensures var t := LastParsing(items, tail);
            || (t == tail && forall k :: k in items ==> !Parses(k))
            || (t.Some? && t.value in items && Parses(t.value)
                && forall k :: k in items && Parses(k) ==> !Less(t.value, k))
    decreases |items|
  {
    if items != [] {
      var init, last := items[..|items| - 1], items[|items| - 1];
      assert last in items && forall k :: k in items <==> k in init || k == last;
      if Parses(last) {
        forall k | k in items ensures !Less(last, k) {
          LessIrreflexive(last);
          if k != last {
            LessAsymmetric(k, last);
          }
        }
      } else {
        LastIsGreatest(init, tail);
      }
    }
  }

  /** The candidates of `base` up to `after` do not sort behind the key held, which is stored and
      no later than `after`. */
  ghost predicate Held(base: seq<Name>, keys: seq<Name>, prefix: Name, after: Option<Name>, tail: Option<Name>) {
    && (tail.Some? ==> after.Some? && Candidate(keys, prefix, tail.value) && !Less(after.value, tail.value))
    && (after.Some? ==>
          forall k :: Candidate(base, prefix, k) && !Less(after.value, k) ==> tail.Some? && !Less(tail.value, k))
  }

  lemma PageItems(keys: seq<Name>, prefix: Name, after: Option<Name>)
    requires Ascending(keys)
    ensures var p := PageOf(keys, prefix, after, PAGE);
            && Ascending(p.items)
            && (forall k :: k in p.items ==> k in keys && Wanted(k, prefix, after))
            && (forall k :: k in keys && Wanted(k, prefix, after) && (p.next.Some? ==> !Less(p.next.value, k)) ==>
                  k in p.items)
            && (p.next.Some? ==> forall k :: k in p.items ==> !Less(p.next.value, k))
            && (p.next.Some? ==> Wanted(p.next.value, prefix, after))
  {
    var m, p := Matching(keys, prefix, after), PageOf(keys, prefix, after, PAGE);
    MatchingAscends(keys, prefix, after);
    forall k ensures k in m <==> k in keys && Wanted(k, prefix, after) {
      MatchingHolds(keys, prefix, after, k);
    }
    if p.next.Some? {
      forall k | k in p.items ensures !Less(p.next.value, k) {
        var j :| 0 <= j < PAGE && m[j] == k;
        if j < PAGE - 1 {
          LessAsymmetric(m[j], m[PAGE - 1]);
        } else {
          LessIrreflexive(k);
        }
      }
      forall k | k in keys && Wanted(k, prefix, after) && !Less(p.next.value, k) ensures k in p.items {
        var j :| 0 <= j < |m| && m[j] == k;
        assert j < PAGE;
      }
    }
  }

  /** One page later: the key is still held, now up to the page's last key, and after the last
      page no candidate of `base` sorts behind it. */
  lemma PageKeepsTail(base: seq<Name>, keys: seq<Name>, prefix: Name, after: Option<Name>, tail: Option<Name>)
    requires Ascending(keys) && (forall k :: k in base ==> k in keys) && Held(base, keys, prefix, after, tail)
    ensures var p := PageOf(keys, prefix, after, PAGE);
            var t := LastParsing(p.items, tail);
            && (p.next.Some? ==> Held(base, keys, prefix, p.next, t))
            && (p.next.None? ==> forall k :: Candidate(base, prefix, k) ==> t.Some? && !Less(t.value, k))
            && (t.Some? ==> Candidate(keys, prefix, t.value))
  {
    hide Parses, Less;
    var p := PageOf(keys, prefix, after, PAGE);
    var t := LastParsing(p.items, tail);
    PageItems(keys, prefix, after);
    LastIsGreatest(p.items, tail);
    forall k | Candidate(base, prefix, k) && (p.next.Some? ==> !Less(p.next.value, k))
      ensures t.Some? && !Less(t.value, k)
    {
      if Wanted(k, prefix, after) {
        assert k in p.items;
      } else if t != tail && Less(t.value, k) {
        LessTransitive(after.value, t.value, k);
      }
    }
    if p.next.Some? && t == tail && t.Some? && Less(p.next.value, t.value) {
      LessTransitive(after.value, p.next.value, t.value);
    }
  }

  lemma {:induction false} TailBracketed(base: seq<Name>, snaps: seq<seq<Name>>, prefix: Name, after: Option<Name>,
                                         tail: Option<Name>)
    requires Growing(snaps)
    requires snaps != [] ==> (forall k :: k in base ==> k in snaps[0]) && Held(base, snaps[0], prefix, after, tail)
    ensures var r := TailOver(snaps, prefix, after, tail);
            r.Some? ==>
              && (forall k :: Candidate(base, prefix, k) ==> r.value.Some? && !Less(r.value.value, k))
              && (r.value.Some? ==> Candidate(snaps[|snaps| - 1], prefix, r.value.value))
    decreases |snaps|
  {
    hide Parses, Less;
    if snaps != [] {
      var p := PageOf(snaps[0], prefix, after, PAGE);
      PageKeepsTail(base, snaps[0], prefix, after, tail);
      if p.next.Some? && |snaps| > 1 {
        assert snaps[1] == snaps[1..][0];
        TailBracketed(base, snaps[1..], prefix, p.next, LastParsing(p.items, tail));
      }
    }
  }

  /** While keys only appear, the key found is stored when the listing ends, and a generation stored
      when it began is at most the one found exactly when its key does not overtake the key found. */
  lemma TailIsBracketed(snaps: seq<seq<Name>>, prefix: Name)
    requires snaps != [] && Growing(snaps)
    ensures var r := TailOver(snaps, prefix, None, None);
            r.Some? ==>
              && (r.value.None? ==> forall k :: !Candidate(snaps[0], prefix, k))
              && (r.value.Some? ==>
                    && Candidate(snaps[|snaps| - 1], prefix, r.value.value)
                    && forall k :: Candidate(snaps[0], prefix, k) ==>
                         (ParseGeneration(k).value <= GenerationOf(r.value).value <==> !Overtakes(k, r.value.value)))
  {
    hide ParseGeneration, Less, Overtakes;
    var r := TailOver(snaps, prefix, None, None);
    TailBracketed(snaps[0], snaps, prefix, None, None);
    if r.Some? && r.value.Some? {
      forall k | Candidate(snaps[0], prefix, k)
        ensures ParseGeneration(k).value <= GenerationOf(r.value).value <==> !Overtakes(k, r.value.value)
      {
        OvertakesExactly(k, r.value.value);
      }
    }
  }

  // ---------- An unchanged store ----------

  lemma {:induction false} LastParsingAfter(items: seq<Name>, more: seq<Name>, tail: Option<Name>)
    ensures LastParsing(more, LastParsing(items, tail)) == LastParsing(items + more, tail)
    decreases |more|
  {
    if more == [] {
      assert items + more == items;
    } else {
      assert (items + more)[..|items + more| - 1] == items + more[..|more| - 1];
      LastParsingAfter(items, more[..|more| - 1], tail);
    }
  }

  /** With enough calls, listing an unchanged store yields the last key that parses among all keys
      under the prefix, whatever those keys are. */
  lemma {:induction false} SteadyTail(keys: seq<Name>, n: nat, prefix: Name, after: Option<Name>, tail: Option<Name>)
    requires Ascending(keys) && n * PAGE > |Matching(keys, prefix, after)|
    ensures TailOver(seq(n, _ => keys), prefix, after, tail) == Some(LastParsing(Matching(keys, prefix, after), tail))
    decreases n
  {
    hide LastParsing, Matching, Ascending;
    var m, p := Matching(keys, prefix, after), PageOf(keys, prefix, after, PAGE);
    var snaps := seq(n, _ => keys);
    assert snaps[0] == keys;
    if p.next.Some? {
      MatchingContinues(keys, prefix, after, PAGE - 1);
      SteadyTail(keys, n - 1, prefix, p.next, LastParsing(p.items, tail));
      assert snaps[1..] == seq(n - 1, _ => keys);
      LastParsingAfter(p.items, m[PAGE..], tail);
      assert m == m[..PAGE] + m[PAGE..];
    }
  }

  /** Over an unchanged store tail discovery reads the generation of the last key that parses, and
      that is the greatest one exactly when no key that parses overtakes it. */
  lemma TailIsMaximumExactly(keys: seq<Name>, n: nat, prefix: Name)
    requires Ascending(keys) && n * PAGE > |keys|
    ensures var last := LastParsing(Matching(keys, prefix, None), None);
            && TailOver(seq(n, _ => keys), prefix, None, None) == Some(last)
            && (last.None? <==> forall k :: !Candidate(keys, prefix, k))
            && (last.Some? ==>
                  && Candidate(keys, prefix, last.value)
                  && ((forall k :: Candidate(keys, prefix, k) ==> ParseGeneration(k).value <= GenerationOf(last).value)
                      <==> forall k :: Candidate(keys, prefix, k) ==> !Overtakes(k, last.value)))
  {
    hide ParseGeneration, Less, Overtakes;
    MatchingShrinks(keys, prefix, None);
    SteadyTail(keys, n, prefix, None, None);
    TailIsBracketed(seq(n, _ => keys), prefix);
  }

  /** Over the keys the protocol writes the tail found is the greatest generation. */
  lemma TailOfClaims(keys: seq<Name>, n: nat, prefix: Name)
    requires EndsWithSlash(prefix) && Ascending(keys) && n * PAGE > |keys|
    requires forall k :: Candidate(keys, prefix, k) ==> IsClaimKey(prefix, k)
    ensures var r := TailOver(seq(n, _ => keys), prefix, None, None);
            && r.Some?
            && (r.value.None? <==> forall k :: k in keys ==> !IsClaimKey(prefix, k))
            && (r.value.Some? ==>
                  && r.value.value in keys && IsClaimKey(prefix, r.value.value)
                  && forall k :: k in keys && IsClaimKey(prefix, k) ==>
                       Generation(prefix, k) <= Generation(prefix, r.value.value))
  {
    hide ParseGeneration, Less, Overtakes;
    TailIsMaximumExactly(keys, n, prefix);
    TailBracketed(keys, seq(n, _ => keys), prefix, None, None);
    var r := TailOver(seq(n, _ => keys), prefix, None, None);
    forall k | k in keys && IsClaimKey(prefix, k)
      ensures Candidate(keys, prefix, k)
      ensures r.value.Some? ==> Generation(prefix, k) <= Generation(prefix, r.value.value)
    {
      ClaimKeyParses(prefix, k);
      if r.value.Some? {
        ClaimKeysOrder(prefix, r.value.value, k);
      }
    }
  }

  // ---------- Two stores it misreads ----------

  /** An upper-case key is outside the grammar but still parses, and it sorts before lower-case
      ones: with `...0000000B` beside `...0000000a`, generation 10 is reported although 11 parses. */
  lemma UpperCaseHidesTail(prefix: Name)
    requires EndsWithSlash(prefix)
    ensures var b, a := prefix + Ascii("0000000B"), prefix + Ascii("0000000a");
            && Ascending([b, a]) && ParseGeneration(b) == Some(11) && ParseGeneration(a) == Some(10)
            && TailOver([[b, a]], prefix, None, None) == Some(Some(a)) && Overtakes(b, a)
  {
    var b, a := prefix + Ascii("0000000B"), prefix + Ascii("0000000a");
    LessAt(Ascii("0000000B"), Ascii("0000000a"), 7);
    LessAfterPrefix(prefix, Ascii("0000000B"), Ascii("0000000a"));
    LastOfLiteral(prefix, Ascii("0000000B"), 66);
    LastOfLiteral(prefix, Ascii("0000000a"), 97);
    LastOfTwo(b, a, prefix);
  }

  /** A key one segment deeper parses too: `...x/00000001` hides `...0000000a`. */
  lemma DeeperKeyHidesTail(prefix: Name)
    requires EndsWithSlash(prefix)
    ensures var a, x := prefix + Ascii("0000000a"), prefix + Ascii("x/") + Ascii("00000001");
            && Ascending([a, x]) && ParseGeneration(a) == Some(10) && ParseGeneration(x) == Some(1)
            && TailOver([[a, x]], prefix, None, None) == Some(Some(x)) && Overtakes(a, x)
  {
    var a, x := prefix + Ascii("0000000a"), prefix + Ascii("x/") + Ascii("00000001");
    LessAt(Ascii("0000000a"), Ascii("x/") + Ascii("00000001"), 0);
    LessAfterPrefix(prefix, Ascii("0000000a"), Ascii("x/") + Ascii("00000001"));
    assert x == prefix + (Ascii("x/") + Ascii("00000001"));
    LastOfLiteral(prefix, Ascii("0000000a"), 97);
    LastOfLiteral(prefix + Ascii("x/"), Ascii("00000001"), 49);
    LastOfTwo(a, x, prefix);
  }

  lemma LastOfTwo(k: Name, l: Name, prefix: Name)
    requires Less(k, l) && prefix <= k && prefix <= l && Parses(k) && Parses(l)
    ensures Ascending([k, l]) && TailOver([[k, l]], prefix, None, None) == Some(Some(l))
    ensures ParseGeneration(k).value > ParseGeneration(l).value <==> Overtakes(k, l)
  {
    hide ParseGeneration, Less, Overtakes;
    LessAsymmetric(k, l);
    OvertakesExactly(k, l);
    assert [k, l][1..] == [l];
    assert Matching([l], prefix, None) == [l];
    assert Matching([k, l], prefix, None) == [k, l];
    assert [k, l][|[k, l]| - 1] == l;
  }

  lemma LastOfLiteral(prefix: Name, w: seq<byte>, c: byte)
    requires EndsWithSlash(prefix) && |w| == 8 && (forall i :: 0 <= i < 7 ==> w[i] == 48) && w[7] == c
             && AnyDigit(c).Some?
    ensures ParseGeneration(prefix + w) == AnyDigit(c)
  {
    var p := prefix[..|prefix| - 1];
    assert prefix + w == p + [SLASH] + w;
    assert Without(w, SLASH);
    LastSegment(p, w);
    ZeroRadix(w[..7]);
  }

  lemma {:induction false} ZeroRadix(s: seq<byte>)
    requires forall i :: 0 <= i < |s| ==> s[i] == 48
    ensures FromRadix(s) == Some(0)
  {
    if s != [] {
      ZeroRadix(s[..|s| - 1]);
    }
  }
}
