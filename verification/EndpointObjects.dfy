/** Endpoints as objects with a fixed buffer of slots, changed in place. */
module EndpointObjects {
  import opened Sequences
  import opened Tables

  /** The range of the unsigned type that counts entries: decrementing zero wraps around. */
  const SIZE_MODULUS: nat := 0x1_0000_0000_0000_0000

  /** Overwriting entry i by moving the used entries behind it down by one. */
  method ShiftDownInPlace<T(!new)>(a: array<T>, num: nat, i: nat)
    requires i < num <= a.Length
    modifies a
    ensures a[..] == ShiftDown(old(a[..]), num, i)
  {
    ghost var s := a[..];
    var j := i;
    while j < num - 1
      invariant i <= j <= num - 1
      invariant forall q :: i <= q < j ==> a[q] == s[q + 1]
      invariant forall q :: 0 <= q < i || j <= q < a.Length ==> a[q] == s[q]
    {
      a[j] := a[j + 1];
      j := j + 1;
    }
    assert a[..] == ShiftDown(s, num, i);
  }

  class ContentEndpoint {
    var resource: Resource
    var callback: nat
    const peers: array<nat>
    var numPeers: nat

    ghost predicate Valid()
      reads this
    {
      numPeers <= peers.Length
    }

    ghost function Value(): Endpoint
      requires Valid()
      reads this, peers
    {
      Endpoint(resource, callback, peers[..numPeers])
    }

    constructor (max: nat)
      ensures Valid() && numPeers == 0 && peers.Length == max && fresh(peers)
    {
      resource := Resource(0, 0);
      callback := 0;
      peers := new nat[max];
      numPeers := 0;
    }

    /** Whether a slot is named, and where first. */
    method Find(k: nat) returns (i: nat)
      requires Valid()
      ensures i <= numPeers
      ensures i < numPeers ==> peers[i] == k
      ensures k !in peers[..i]
    {
      i := 0;
      while i < numPeers && peers[i] != k
        invariant i <= numPeers && k !in peers[..i]
      {
        i := i + 1;
      }
    }

    /** Links a slot; the caller counts the link. */
    method Link(k: nat) returns (code: int)
      requires Valid()
      modifies this`numPeers, peers
      ensures Valid() && (Value(), code) == LinkEndpoint(old(Value()), k, peers.Length)
    {
      if numPeers >= peers.Length {
        return -1;
      }
      var i := Find(k);
      if i < numPeers {
        assert peers[..numPeers][i] == k;
        return 0;
      }
      peers[numPeers] := k;
      numPeers := numPeers + 1;
      assert peers[..numPeers] == old(peers[..numPeers]) + [k];
      return 1;
    }

    /** Unlinks a slot; the caller takes the link off the count. */
    method Unlink(k: nat) returns (code: nat)
      requires Valid()
      modifies this`numPeers, peers
      ensures Valid() && (Value(), code) == UnlinkEndpoint(old(Value()), k)
    {
      var i := Find(k);
      if i == numPeers {
        return 0;
      }
      ghost var s := peers[..];
      ghost var num := numPeers;
      ShiftDownInPlace(peers, numPeers, i);
      numPeers := numPeers - 1;
      assert s[..num][i] == k && s[..num][..i] == s[..i];
      RemoveAt(s[..num], k, i);
      ShiftDownParts(s, num, i);
      assert peers[..numPeers] == s[..i] + s[i + 1..num];
      assert s[..num][..i] == s[..i] && s[..num][i + 1..] == s[i + 1..num];
      return 1;
    }

    /** Drops the dead peers. The index counts in an unsigned type: stepping back from zero wraps
        around, and the next step forward wraps back. */
    method UnlinkDeadPeers(slots: array<Peer>)
      requires Valid() && peers.Length < SIZE_MODULUS
      requires Below(peers[..numPeers], slots.Length)
      modifies this`numPeers, peers
      ensures Valid()
      ensures Value() == old(Value()).(peers := Filter(old(peers[..numPeers]), IsAliveIn(slots[..])))
    {
      hide Filter, ShiftDown, Compact, Below;
      ghost var s, num, keep := peers[..], numPeers, IsAliveIn(slots[..]);
      var i: nat := 0;
      while i < numPeers
        invariant i <= numPeers <= num <= peers.Length
        invariant Below(peers[..numPeers], slots.Length)
        invariant Compact(s, num, 0, keep) == Compact(peers[..], numPeers, i, keep)
        decreases numPeers - i
      {
        UsedIsBelow(peers[..], numPeers, i, slots.Length);
        CompactStep(peers[..], numPeers, i, keep);
        if !slots[peers[i]].alive {
          ShiftDownBelow(peers[..], numPeers, i, slots.Length);
          ShiftDownInPlace(peers, numPeers, i);
          numPeers := numPeers - 1;
          i := (i - 1) % SIZE_MODULUS;
        }
        i := (i + 1) % SIZE_MODULUS;
      }
      CompactDone(peers[..], numPeers, keep);
      CompactFilters(s, num, keep);
    }
  }

  lemma UsedIsBelow(s: seq<nat>, num: nat, i: nat, limit: nat)
    requires i < num <= |s| && Below(s[..num], limit)
    ensures s[i] < limit
  {
    assert s[..num][i] == s[i];
  }

  lemma ShiftDownBelow(s: seq<nat>, num: nat, i: nat, limit: nat)
    requires i < num <= |s| && Below(s[..num], limit)
    ensures Below(ShiftDown(s, num, i)[..num - 1], limit)
  {
    var t := ShiftDown(s, num, i);
    forall q | 0 <= q < num - 1
      ensures t[q] < limit
    {
      assert t[q] == s[..num][if q < i then q else q + 1];
    }
  }

  lemma CompactStep<T(!new)>(s: seq<T>, num: nat, i: nat, keep: T -> bool)
    requires i < num <= |s|
    ensures Compact(s, num, i, keep)
         == if keep(s[i]) then Compact(s, num, i + 1, keep) else Compact(ShiftDown(s, num, i), num - 1, i, keep)
  {
  }

  lemma CompactDone<T(!new)>(s: seq<T>, num: nat, keep: T -> bool)
    requires num <= |s|
    ensures Compact(s, num, num, keep) == (s, num)
  {
  }

  /** Compacting from the start is filtering. */
  lemma CompactFilters<T(!new)>(s: seq<T>, num: nat, keep: T -> bool)
    requires num <= |s|
    ensures var (r, n) := Compact(s, num, 0, keep);
            r[..n] == Filter(s[..num], keep)
  {
    hide Filter, Compact;
    CompactIsFilter(s, num, 0, keep);
    assert s[0..num] == s[..num] && s[..0] + Filter(s[..num], keep) == Filter(s[..num], keep);
  }

  lemma {:induction false} RemoveAt(s: seq<nat>, k: nat, i: nat)
    requires i < |s| && s[i] == k && k !in s[..i]
    ensures k in s && Remove(s, k) == s[..i] + s[i + 1..]
    decreases i
  {
    if i > 0 {
      assert s[0] == s[..i][0];
      assert s[1..][..i - 1] == s[..i][1..];
      RemoveAt(s[1..], k, i - 1);
    }
  }
}
