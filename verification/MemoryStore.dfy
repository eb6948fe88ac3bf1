/** The in-memory object store: a sorted map with a version counter and a strictly increasing
    logical clock, every write stamped with both. */
module MemoryStore {
  import opened Wrappers
  import opened Bytes
  import opened Listing

  datatype Stored = Stored(body: seq<byte>, version: nat, time: nat)
  datatype Meta = Meta(version: nat, time: nat, size: nat)
  datatype Item = Item(key: Name, meta: Meta)
  datatype Outcome = Committed(version: nat) | Rejected
  datatype Error = NotFound | IntegrityViolation
  datatype Result<+T> = Ok(value: T) | Err(error: Error)
  datatype Range = Range(start: nat, end: nat)

  function MetaOf(s: Stored): Meta {
    Meta(s.version, s.time, |s.body|)
  }

  /** No two objects share a version or a store time, and none is stamped beyond the counters. */
  ghost predicate Stamped(objects: map<Name, Stored>, counter: nat, clock: nat) {
    && (forall k :: k in objects ==> objects[k].version < counter && objects[k].time <= clock)
    && (forall j, k :: j in objects && k in objects && j != k ==>
          objects[j].version != objects[k].version && objects[j].time != objects[k].time)
  }

  lemma StampedWrite(objects: map<Name, Stored>, counter: nat, clock: nat, key: Name, s: Stored)
    requires Stamped(objects, counter, clock) && s.version == counter && s.time > clock
    ensures Stamped(objects[key := s], counter + 1, s.time)
  {}

  class Store {
    var keys: seq<Name>
    var objects: map<Name, Stored>
    var versionCounter: nat
    var clock: nat
    const tick: nat
    const sha: seq<byte> -> Bytes32

    /** The keys are the map's, in order, and every object carries its own stamps. */
    ghost predicate Valid()
      reads this
    {
      && tick > 0
      && Ascending(keys)
      && (forall k :: k in keys <==> k in objects)
      && Stamped(objects, versionCounter, clock)
    }

    constructor (tick: nat, sha: seq<byte> -> Bytes32)
      requires tick > 0
      ensures Valid() && objects == map[] && this.tick == tick && this.sha == sha && versionCounter == 1 && clock == 1
    {
      keys, objects := [], map[];
      versionCounter, clock := 1, 1;
      this.tick := tick;
      this.sha := sha;
    }

    /** Raises the clock; lower values are ignored. */
    method AdvanceClockTo(ns: nat)
      requires Valid()
      modifies this`clock
      ensures Valid() && clock == if ns > old(clock) then ns else old(clock)
    {
      if ns > clock {
        clock := ns;
      }
    }

    /** Where a key belongs in the sorted keys. */
    method Find(key: Name) returns (i: nat)
      requires Ascending(keys)
      ensures i <= |keys|
      ensures forall j :: 0 <= j < i ==> Less(keys[j], key)
      ensures forall j :: i <= j < |keys| ==> !Less(keys[j], key)
    {
      i := 0;
      while i < |keys| && Less(keys[i], key)
        invariant i <= |keys|
        invariant forall j :: 0 <= j < i ==> Less(keys[j], key)
      {
        i := i + 1;
      }
      if i < |keys| {
        ghost var at := i;
        forall j | at <= j < |keys| ensures !Less(keys[j], key) {
          if j > at && Less(keys[j], key) {
            LessTransitive(keys[at], keys[j], key);
          }
        }
      }
    }

    /** The first write to a key wins; a second changes nothing. */
    method PutIfAbsent(key: Name, body: seq<byte>, digest: Bytes32) returns (r: Result<Outcome>)
      requires Valid()
      modifies this
      ensures Valid()
      ensures sha(body) != digest ==> r == Err(IntegrityViolation)
      ensures sha(body) == digest && key in old(objects) ==> r == Ok(Rejected)
      ensures sha(body) == digest && key !in old(objects) ==> r == Ok(Committed(old(versionCounter)))
      ensures r.Ok? && r.value.Committed? ==>
                && objects == old(objects)[key := Stored(body, old(versionCounter), old(clock) + tick)]
                && versionCounter == old(versionCounter) + 1 && clock == old(clock) + tick
      ensures !(r.Ok? && r.value.Committed?) ==> unchanged(this)
    {
      hide Less, Ascending, Stamped;
      if sha(body) != digest {
        return Err(IntegrityViolation);
      }
      if key in objects {
        return Ok(Rejected);
      }
      var version := versionCounter;
      versionCounter := versionCounter + 1;
      clock := clock + tick;
      StampedWrite(objects, version, old(clock), key, Stored(body, version, clock));
      var i := Find(key);
      Inserted(keys, i, key);
      keys := keys[..i] + [key] + keys[i..];
      objects := objects[key := Stored(body, version, clock)];
      r := Ok(Committed(version));
    }

    /** Replaces an object only at the version the caller saw. */
    method Cas(key: Name, body: seq<byte>, digest: Bytes32, ifMatch: nat) returns (r: Result<Outcome>)
      requires Valid()
      modifies this
      ensures Valid()
      ensures sha(body) != digest ==> r == Err(IntegrityViolation)
      ensures sha(body) == digest && key !in old(objects) ==> r == Err(NotFound)
      ensures sha(body) == digest && key in old(objects) ==>
                r == Ok(if old(objects)[key].version == ifMatch then Committed(old(versionCounter)) else Rejected)
      ensures r.Ok? && r.value.Committed? ==>
                && objects == old(objects)[key := Stored(body, old(versionCounter), old(clock) + tick)]
                && versionCounter == old(versionCounter) + 1 && clock == old(clock) + tick
      ensures !(r.Ok? && r.value.Committed?) ==> unchanged(this)
    {
      hide Less, Ascending, Stamped;
      if sha(body) != digest {
        return Err(IntegrityViolation);
      }
      if key !in objects {
        return Err(NotFound);
      }
      if objects[key].version != ifMatch {
        return Ok(Rejected);
      }
      var version := versionCounter;
      versionCounter := versionCounter + 1;
      clock := clock + tick;
      StampedWrite(objects, version, old(clock), key, Stored(body, version, clock));
      objects := objects[key := Stored(body, version, clock)];
      r := Ok(Committed(version));
    }

    /** The object, or the part of it in a non-empty half-open range within its size. */
    method Get(key: Name, range: Option<Range>) returns (r: Result<(Meta, seq<byte>)>)
      requires Valid()
      ensures r.Ok? <==>
              key in objects && (range.Some? ==> range.value.start < range.value.end <= |objects[key].body|)
      ensures r.Err? ==> r.error == NotFound
      ensures r.Ok? ==> r.value == (MetaOf(objects[key]),
                                    if range.None? then objects[key].body
                                    else objects[key].body[range.value.start..range.value.end])
    {
      if key !in objects {
        return Err(NotFound);
      }
      var s := objects[key];
      match range {
        case None => return Ok((MetaOf(s), s.body));
        case Some(b) =>
          if b.start >= b.end || b.end > |s.body| {
            return Err(NotFound);
          }
          return Ok((MetaOf(s), s.body[b.start..b.end]));
      }
    }

    method Head(key: Name) returns (r: Result<Meta>)
      requires Valid()
      ensures r == if key in objects then Ok(MetaOf(objects[key])) else Err(NotFound)
    {
      if key !in objects {
        return Err(NotFound);
      }
      r := Ok(MetaOf(objects[key]));
    }

    /** One page of the keys under a prefix, scanned in order from `after`. */
    method List(prefix: Name, after: Option<Name>, limit: nat) returns (items: seq<Item>, next: Option<Name>)
      requires Valid()
      ensures var p := PageOf(keys, prefix, after, limit);
              && next == p.next && |items| == |p.items|
              && forall i :: 0 <= i < |items| ==>
                   && items[i].key == p.items[i] && items[i].key in objects
                   && items[i].meta == MetaOf(objects[items[i].key])
    {
      hide Less, Ascending, Stamped, Described, Scanned, PageOf;
      items, next := [], None;
      var i := 0;
      if after.Some? {
        i := Find(after.value);
      }
      ghost var names: seq<Name> := [];
      ScanStarts(keys, i, prefix, after);
      NothingDescribed(objects);
      while i < |keys|
        invariant i <= |keys| && |items| <= limit
        invariant Described(items, names, objects) && Scanned(names, keys, i, prefix, after)
        invariant next == Last(names)
      {
        var k := keys[i];
        DescribedItems(items, names, objects);
        if (after.Some? && !Less(after.value, k)) || !(prefix <= k) {
          ScanSkips(names, keys, i, prefix, after);
          i := i + 1;
          continue;
        }
        if |items| == limit {
          ScanFull(names, keys, i, prefix, after, limit);
          return;
        }
        ScanTakes(names, keys, i, prefix, after);
        DescribesNext(items, names, objects, k);
        items := items + [Item(k, MetaOf(objects[k]))];
        names := names + [k];
        next := Some(k);
        i := i + 1;
      }
      DescribedItems(items, names, objects);
      ScanEnds(names, keys, prefix, after, limit);
      return items, None;
    }

    method Delete(key: Name)
      requires Valid()
      modifies this`keys, this`objects
      ensures Valid() && objects == old(objects) - {key}
    {
      var i := Find(key);
      if i < |keys| && keys[i] == key {
        keys := keys[..i] + keys[i + 1..];
        objects := objects - {key};
        assert forall k :: k in keys <==> k in objects by {
          OnlyAt(old(keys), i);
        }
      } else {
        assert key !in keys by {
          if key in keys {
            var j :| 0 <= j < |keys| && keys[j] == key;
            LessIrreflexive(key);
          }
        }
        assert objects - {key} == objects;
      }
    }
  }

  /** The items are the named objects with their metadata. */
  ghost predicate Described(items: seq<Item>, names: seq<Name>, objects: map<Name, Stored>) {
    && |items| == |names|
    && forall j :: 0 <= j < |items| ==>
         items[j].key == names[j] && names[j] in objects && items[j].meta == MetaOf(objects[names[j]])
  }

  lemma NothingDescribed(objects: map<Name, Stored>)
    ensures Described([], [], objects)
  {}

  lemma DescribesNext(items: seq<Item>, names: seq<Name>, objects: map<Name, Stored>, k: Name)
    requires Described(items, names, objects) && k in objects
    ensures Described(items + [Item(k, MetaOf(objects[k]))], names + [k], objects)
  {}

  lemma DescribedItems(items: seq<Item>, names: seq<Name>, objects: map<Name, Stored>)
    requires Described(items, names, objects)
    ensures |items| == |names|
    ensures forall j :: 0 <= j < |items| ==>
              items[j].key == names[j] && names[j] in objects && items[j].meta == MetaOf(objects[names[j]])
  {}

  function Last(names: seq<Name>): Option<Name> {
    if names == [] then None else Some(names[|names| - 1])
  }

  /** The wanted keys before position `i` are `names`. */
  ghost predicate Scanned(names: seq<Name>, keys: seq<Name>, i: nat, prefix: Name, after: Option<Name>) {
    i <= |keys| && names + Matching(keys[i..], prefix, after) == Matching(keys, prefix, after)
  }

  lemma ScanStarts(keys: seq<Name>, i: nat, prefix: Name, after: Option<Name>)
    requires i <= |keys| && (i > 0 ==> after.Some? && forall j :: 0 <= j < i ==> Less(keys[j], after.value))
    ensures Scanned([], keys, i, prefix, after)
  {
    if i == 0 {
      assert keys[0..] == keys;
    } else {
      SkipUnwanted(keys, prefix, after, i);
    }
    assert [] + Matching(keys[i..], prefix, after) == Matching(keys[i..], prefix, after);
  }

  lemma ScanSkips(names: seq<Name>, keys: seq<Name>, i: nat, prefix: Name, after: Option<Name>)
    requires i < |keys| && Scanned(names, keys, i, prefix, after) && !Wanted(keys[i], prefix, after)
    ensures Scanned(names, keys, i + 1, prefix, after)
  {
    assert keys[i..][1..] == keys[i + 1..];
  }

  lemma ScanTakes(names: seq<Name>, keys: seq<Name>, i: nat, prefix: Name, after: Option<Name>)
    requires i < |keys| && Scanned(names, keys, i, prefix, after) && Wanted(keys[i], prefix, after)
    ensures Scanned(names + [keys[i]], keys, i + 1, prefix, after) && Last(names + [keys[i]]) == Some(keys[i])
  {
    assert keys[i..][1..] == keys[i + 1..];
    var rest := Matching(keys[i + 1..], prefix, after);
    assert names + ([keys[i]] + rest) == names + [keys[i]] + rest;
  }

  /** The page is full and another key is wanted. */
  lemma ScanFull(names: seq<Name>, keys: seq<Name>, i: nat, prefix: Name, after: Option<Name>, limit: nat)
    requires i < |keys| && Scanned(names, keys, i, prefix, after) && Wanted(keys[i], prefix, after) && |names| == limit
    ensures PageOf(keys, prefix, after, limit) == Page(names, Last(names))
  {
    var m := Matching(keys, prefix, after);
    assert m[..limit] == names;
  }

  lemma ScanEnds(names: seq<Name>, keys: seq<Name>, prefix: Name, after: Option<Name>, limit: nat)
    requires Scanned(names, keys, |keys|, prefix, after) && |names| <= limit
    ensures PageOf(keys, prefix, after, limit) == Page(names, None)
  {
    assert names + [] == names;
  }

  lemma Inserted(keys: seq<Name>, i: nat, key: Name)
    requires Ascending(keys) && key !in keys && i <= |keys|
    requires forall j :: 0 <= j < i ==> Less(keys[j], key)
    requires forall j :: i <= j < |keys| ==> !Less(keys[j], key)
    ensures Ascending(keys[..i] + [key] + keys[i..])
    ensures forall k :: k in keys[..i] + [key] + keys[i..] <==> k in keys || k == key
  {
    hide Less;
    forall j | i <= j < |keys| ensures Less(key, keys[j]) {
      LessTotal(keys[j], key);
    }
    assert keys == keys[..i] + keys[i..];
  }

  /** Distinct sorted keys: removing one position removes exactly that key. */
  lemma OnlyAt(keys: seq<Name>, i: nat)
    requires Ascending(keys) && i < |keys|
    ensures forall k :: k in keys[..i] + keys[i + 1..] <==> k in keys && k != keys[i]
  {
    forall k ensures k in keys[..i] + keys[i + 1..] <==> k in keys && k != keys[i] {
      if k in keys && k != keys[i] {
        var j :| 0 <= j < |keys| && keys[j] == k;
        assert j < i ==> keys[..i][j] == k;
        assert j > i ==> keys[i + 1..][j - i - 1] == k;
      }
      if k in keys[..i] + keys[i + 1..] {
        LessIrreflexive(keys[i]);
      }
    }
  }

  /** Keys up to `after` are not wanted. */
  lemma {:induction false} SkipUnwanted(keys: seq<Name>, prefix: Name, after: Option<Name>, i: nat)
    requires i <= |keys| && after.Some? && forall j :: 0 <= j < i ==> Less(keys[j], after.value)
    ensures Matching(keys[i..], prefix, after) == Matching(keys, prefix, after)
  {
    if i == 0 {
      assert keys[0..] == keys;
    } else {
      LessAsymmetric(keys[0], after.value);
      SkipUnwanted(keys[1..], prefix, after, i - 1);
      assert keys[1..][i - 1..] == keys[i..];
    }
  }
}
