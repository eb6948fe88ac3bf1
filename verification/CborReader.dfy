/** The cursor that reads canonical CBOR step by step, proved against the functions of `Cbor`. */
module CborReader {
  import opened Wrappers
  import opened Bytes
  import opened Cbor

  /** The result of decoding `n` more items after those already read. */
  function After<T>(done: seq<T>, more: Option<Parsed<seq<T>>>): Option<Parsed<seq<T>>> {
    match more
    case None => None
    case Some(p) => Some(Parsed(done + p.value, p.rest))
  }

  lemma AfterNothing<T>(more: Option<Parsed<seq<T>>>)
    ensures After([], more) == more
  {
    if more.Some? {
      assert [] + more.value.value == more.value.value;
    }
  }

  lemma ItemStep(done: seq<Value>, d: seq<byte>, n: nat, levels: nat)
    requires n > 0
    ensures match DecodeValue(d, levels)
            case None => DecodeItems(d, n, levels).None?
            case Some(v) =>
              After(done, DecodeItems(d, n, levels)) == After(done + [v.value], DecodeItems(v.rest, n - 1, levels))
  {
    var v := DecodeValue(d, levels);
    if v.Some? && DecodeItems(v.value.rest, n - 1, levels).Some? {
      var vs := DecodeItems(v.value.rest, n - 1, levels).value.value;
      assert done + ([v.value.value] + vs) == done + [v.value.value] + vs;
    }
  }

  lemma EntryStep(done: seq<Entry>, d: seq<byte>, n: nat, levels: nat)
    requires n > 0
    ensures match DecodeValue(d, levels)
            case None => DecodeEntries(d, n, levels).None?
            case Some(k) =>
              match DecodeValue(k.rest, levels)
              case None => DecodeEntries(d, n, levels).None?
              case Some(v) =>
              After(done, DecodeEntries(d, n, levels))
                == After(done + [Entry(k.value, v.value)], DecodeEntries(v.rest, n - 1, levels))
  {
    var k := DecodeValue(d, levels);
    if k.Some? && DecodeValue(k.value.rest, levels).Some? {
      var v := DecodeValue(k.value.rest, levels).value;
      var e, more := Entry(k.value.value, v.value), DecodeEntries(v.rest, n - 1, levels);
      if more.Some? {
        assert done + ([e] + more.value.value) == done + [e] + more.value.value;
      }
    }
  }

  lemma NoMoreItems(done: seq<Value>, d: seq<byte>, levels: nat)
    ensures After(done, DecodeItems(d, 0, levels)) == Some(Parsed(done, d))
  {
    assert done + [] == done;
  }

  lemma NoMoreEntries(done: seq<Entry>, d: seq<byte>, levels: nat)
    ensures After(done, DecodeEntries(d, 0, levels)) == Some(Parsed(done, d))
  {
    assert done + [] == done;
  }

  class Reader {
    const data: seq<byte>
    var pos: nat
    var depth: nat

    ghost predicate Valid()
      reads this
    {
      pos <= |data| && depth <= MAX_DEPTH
    }

    /** The input not yet read. */
    ghost function Rest(): seq<byte>
      requires Valid()
      reads this
    {
      data[pos..]
    }

    constructor (data: seq<byte>)
      ensures Valid() && this.data == data && Rest() == data && depth == 0
    {
      this.data := data;
      pos := 0;
      depth := 0;
    }

    method Take(n: nat) returns (r: Option<seq<byte>>)
      requires Valid()
      modifies this`pos
      ensures Valid()
      ensures n > |old(Rest())| ==> r.None? && pos == old(pos)
      ensures n <= |old(Rest())| ==> r == Some(old(Rest())[..n]) && Rest() == old(Rest())[n..]
    {
      if n > |data| - pos {
        return None;
      }
      r := Some(data[pos..pos + n]);
      assert data[pos..][..n] == data[pos..pos + n] && data[pos..][n..] == data[pos + n..];
      pos := pos + n;
    }

    method Done() returns (b: bool)
      requires Valid()
      ensures b <==> Rest() == []
    {
      b := pos == |data|;
    }

    method ReadHead() returns (r: Option<(nat, nat)>)
      requires Valid()
      modifies this`pos
      ensures Valid()
      ensures match DecodeHead(old(Rest()))
              case None => r.None?
              case Some(h) => r == Some((h.major, h.value)) && Rest() == h.rest
    {
      ghost var d := Rest();
      var first := Take(1);
      if first.None? {
        return None;
      }
      var b := first.value[0];
      var major, info := b / 32, b % 32;
      if info < 24 {
        return Some((major, info));
      } else if info > 27 {
        return None;
      }
      var w := ArgumentWidth(info);
      var argument := Take(w);
      if argument.None? {
        return None;
      }
      assert argument.value == d[1..][..w] == d[1..1 + w];
      assert Rest() == d[1..][w..] == d[1 + w..];
      var v := FromBigEndian(argument.value);
      if v < ArgumentMinimum(info) {
        return None;
      }
      return Some((major, v));
    }

    method ReadValue() returns (r: Option<Value>)
      requires Valid()
      modifies this`pos, this`depth
      ensures Valid()
      ensures match DecodeValue(old(Rest()), MAX_DEPTH - old(depth))
              case None => r.None?
              case Some(p) => r == Some(p.value) && Rest() == p.rest && depth == old(depth)
      decreases |data| - pos, 0
    {
      if depth >= MAX_DEPTH {
        return None;
      }
      depth := depth + 1;
      var h := ReadHead();
      if h.None? {
        return None;
      }
      r := ReadBody(h.value.0, h.value.1);
      if r.Some? {
        depth := depth - 1;
      }
    }

    method ReadBody(major: nat, n: nat) returns (r: Option<Value>)
      requires Valid() && depth > 0
      modifies this`pos, this`depth
      ensures Valid()
      ensures match DecodeBody(Head(major, n, old(Rest())), MAX_DEPTH - old(depth))
              case None => r.None?
              case Some(p) => r == Some(p.value) && Rest() == p.rest && depth == old(depth)
      decreases |data| - pos, 2
    {
      if major == 0 {
        return Some(Uint(n));
      } else if major == 2 || major == 3 {
        var b := Take(n);
        if b.None? || (major == 3 && !ValidUtf8(b.value)) {
          return None;
        }
        return Some(if major == 2 then Bytes(b.value) else Text(b.value));
      } else if major == 4 {
        var items := ReadItems(n);
        return if items.Some? then Some(Array(items.value)) else None;
      } else if major == 5 {
        var entries := ReadEntries(n);
        if entries.None? {
          return None;
        }
        var sorted := KeysIncrease(entries.value);
        return if sorted then Some(Map(entries.value)) else None;
      } else if major == 7 && (n == 20 || n == 21) {
        return Some(Bool(n == 21));
      }
      return None;
    }

    method ReadItems(n: nat) returns (r: Option<seq<Value>>)
      requires Valid()
      modifies this`pos, this`depth
      ensures Valid()
      ensures match DecodeItems(old(Rest()), n, MAX_DEPTH - old(depth))
              case None => r.None?
              case Some(p) => r == Some(p.value) && Rest() == p.rest && depth == old(depth)
      decreases |data| - pos, 1
    {
      hide DecodeItems, DecodeValue;
      ghost var whole := DecodeItems(Rest(), n, MAX_DEPTH - depth);
      AfterNothing(whole);
      var items: seq<Value> := [];
      for i := 0 to n
        invariant Valid() && depth == old(depth) && old(pos) <= pos
        invariant whole == After(items, DecodeItems(Rest(), n - i, MAX_DEPTH - depth))
        invariant i > 0 ==> old(pos) < pos
      {
        ItemStep(items, Rest(), n - i, MAX_DEPTH - depth);
        var v := ReadValue();
        if v.None? {
          return None;
        }
        items := items + [v.value];
      }
      NoMoreItems(items, Rest(), MAX_DEPTH - depth);
      return Some(items);
    }

    method ReadEntries(n: nat) returns (r: Option<seq<Entry>>)
      requires Valid()
      modifies this`pos, this`depth
      ensures Valid()
      ensures match DecodeEntries(old(Rest()), n, MAX_DEPTH - old(depth))
              case None => r.None?
              case Some(p) => r == Some(p.value) && Rest() == p.rest && depth == old(depth)
      decreases |data| - pos, 1
    {
      hide DecodeEntries, DecodeValue;
      ghost var whole := DecodeEntries(Rest(), n, MAX_DEPTH - depth);
      AfterNothing(whole);
      var entries: seq<Entry> := [];
      for i := 0 to n
        invariant Valid() && depth == old(depth) && old(pos) <= pos
        invariant whole == After(entries, DecodeEntries(Rest(), n - i, MAX_DEPTH - depth))
        invariant i > 0 ==> old(pos) < pos
      {
        EntryStep(entries, Rest(), n - i, MAX_DEPTH - depth);
        var k := ReadValue();
        if k.None? {
          return None;
        }
        var v := ReadValue();
        if v.None? {
          return None;
        }
        entries := entries + [Entry(k.value, v.value)];
      }
      NoMoreEntries(entries, Rest(), MAX_DEPTH - depth);
      return Some(entries);
    }

    /** One value, with nothing after it. */
    method ReadOnly(ghost levels: nat) returns (r: Option<Value>)
      requires Valid() && levels == MAX_DEPTH - depth
      modifies this
      ensures r == Whole(DecodeValue(old(Rest()), levels))
    {
      hide DecodeValue;
      r := ReadValue();
      if r.Some? {
        var done := Done();
        if !done {
          r := None;
        }
      }
    }
  }

  /** The decoder's key check: one encoding per key, each above the one before. */
  method KeysIncrease(entries: seq<Entry>) returns (r: bool)
    ensures r <==> Increasing(Decorate(entries))
  {
    var previous: seq<byte> := [];
    for i := 0 to |entries|
      invariant i > 0 ==> previous == Encode(entries[i - 1].key)
      invariant i > 0 ==> (Increasing(Decorate(entries)) <==> Increasing(Decorate(entries)[i - 1..]))
    {
      var current := Encode(entries[i].key);
      DecorateAt(entries, i);
      if i > 0 {
        DecorateAt(entries, i - 1);
        if !Less(previous, current) {
          return false;
        }
        assert Decorate(entries)[i - 1..][1..] == Decorate(entries)[i..];
      } else {
        assert Decorate(entries)[0..] == Decorate(entries);
      }
      previous := current;
    }
    return true;
  }
}
