/** Paged listing of sorted keys. */
module Listing {
  import opened Wrappers
  import opened Bytes

  type Name = seq<byte>

  ghost predicate Ascending(keys: seq<Name>) {
    forall i, j :: 0 <= i < j < |keys| ==> Less(keys[i], keys[j])
  }

  predicate Wanted(k: Name, prefix: Name, after: Option<Name>) {
    prefix <= k && (after.Some? ==> Less(after.value, k))
  }

  /** The keys under a prefix that come after a given key, in order. */
  function Matching(keys: seq<Name>, prefix: Name, after: Option<Name>): seq<Name> {
    if keys == [] then []
    else if Wanted(keys[0], prefix, after) then [keys[0]] + Matching(keys[1..], prefix, after)
    else Matching(keys[1..], prefix, after)
  }

  datatype Page = Page(items: seq<Name>, next: Option<Name>)

  /** At most `limit` of them, and where to continue when more remain. */
  function PageOf(keys: seq<Name>, prefix: Name, after: Option<Name>, limit: nat): Page {
    var m := Matching(keys, prefix, after);
    if |m| <= limit then Page(m, None)
    else Page(m[..limit], if limit == 0 then None else Some(m[limit - 1]))
  }

  // ---------- Pages concatenate ----------

  lemma {:induction false} MatchingHolds(keys: seq<Name>, prefix: Name, after: Option<Name>, k: Name)
    ensures k in Matching(keys, prefix, after) <==> k in keys && prefix <= k && (after.Some? ==> Less(after.value, k))
  {
    if keys != [] {
      MatchingHolds(keys[1..], prefix, after, k);
      assert k in keys <==> k == keys[0] || k in keys[1..];
    }
  }

  lemma {:induction false} MatchingAscends(keys: seq<Name>, prefix: Name, after: Option<Name>)
    requires Ascending(keys)
    ensures Ascending(Matching(keys, prefix, after))
  {
    if keys != [] {
      var rest := Matching(keys[1..], prefix, after);
      MatchingAscends(keys[1..], prefix, after);
      if Wanted(keys[0], prefix, after) {
        forall i | 0 <= i < |rest| ensures Less(keys[0], rest[i]) {
          MatchingHolds(keys[1..], prefix, after, rest[i]);
        }
        var m := [keys[0]] + rest;
        assert forall i :: 0 < i < |m| ==> m[i] == rest[i - 1];
      }
    }
  }

  lemma {:induction false} SameMatching(keys: seq<Name>, prefix: Name, after: Option<Name>, after': Option<Name>)
    requires forall k :: k in keys ==> Wanted(k, prefix, after) == Wanted(k, prefix, after')
    ensures Matching(keys, prefix, after) == Matching(keys, prefix, after')
  {
    if keys != [] {
      SameMatching(keys[1..], prefix, after, after');
    }
  }

  /** Continuing after a listed key gives exactly the listed keys behind it. */
  lemma {:induction false} MatchingContinues(keys: seq<Name>, prefix: Name, after: Option<Name>, i: nat)
    requires Ascending(keys) && i < |Matching(keys, prefix, after)|
    ensures Matching(keys, prefix, Some(Matching(keys, prefix, after)[i])) == Matching(keys, prefix, after)[i + 1..]
  {
    var m, rest := Matching(keys, prefix, after), Matching(keys[1..], prefix, after);
    var k := m[i];
    MatchingHolds(keys, prefix, after, k);
    if Wanted(keys[0], prefix, after) && i == 0 {
      LessIrreflexive(k);
      forall x | x in keys[1..] ensures Wanted(x, prefix, after) == Wanted(x, prefix, Some(k)) {
        if after.Some? {
          LessTransitive(after.value, k, x);
        }
      }
      SameMatching(keys[1..], prefix, after, Some(k));
    } else {
      var j := if Wanted(keys[0], prefix, after) then i - 1 else i;
      MatchingContinues(keys[1..], prefix, after, j);
      MatchingHolds(keys[1..], prefix, after, k);
      LessAsymmetric(keys[0], k);
    }
  }

  lemma {:induction false} MatchingShrinks(keys: seq<Name>, prefix: Name, after: Option<Name>)
    ensures |Matching(keys, prefix, after)| <= |keys|
  {
    if keys != [] {
      MatchingShrinks(keys[1..], prefix, after);
    }
  }

  /** All pages from `after` on, one behind the other. */
  function Pages(keys: seq<Name>, prefix: Name, after: Option<Name>, limit: nat): (r: seq<Name>)
    requires limit > 0
    decreases |Matching(keys, prefix, after)|
  {
    var p := PageOf(keys, prefix, after, limit);
    if p.next.None? || |Matching(keys, prefix, p.next)| >= |Matching(keys, prefix, after)| then p.items
    else p.items + Pages(keys, prefix, p.next, limit)
  }

  /** Over an unchanged store, pages of any positive limit concatenate to exactly the keys under
      the prefix, in order. */
  lemma {:induction false} PagesConcatenate(keys: seq<Name>, prefix: Name, after: Option<Name>, limit: nat)
    requires Ascending(keys) && limit > 0
    ensures Pages(keys, prefix, after, limit) == Matching(keys, prefix, after)
    decreases |Matching(keys, prefix, after)|
  {
    var m, p := Matching(keys, prefix, after), PageOf(keys, prefix, after, limit);
    if p.next.Some? {
      MatchingContinues(keys, prefix, after, limit - 1);
      PagesConcatenate(keys, prefix, p.next, limit);
      assert m == m[..limit] + m[limit..];
    }
  }
}
