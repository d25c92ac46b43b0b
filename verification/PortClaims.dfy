/** What a search for free ports takes, from the configuration and from allocations in the Free phase, for any list. */
module PortClaims {
  import opened GoValues
  import opened PortIterators
  import opened PortManagers

  /** The ports of the allocations in the Free phase, in the order of the list. */
  function FreePorts(s: seq<Allocation>): seq<uint16> {
    if s == [] then [] else (if s[0].status == Free then s[0].ports else []) + FreePorts(s[1..])
  }

  /** The list without the allocations in the Free phase. */
  function Others(s: seq<Allocation>): seq<Allocation> {
    if s == [] then [] else (if s[0].status == Free then [] else [s[0]]) + Others(s[1..])
  }

  lemma {:induction false} Split(s: seq<Allocation>, t: seq<Allocation>)
    ensures FreePorts(s + t) == FreePorts(s) + FreePorts(t)
    ensures Others(s + t) == Others(s) + Others(t)
  {
    if s == [] {
      assert s + t == t;
    } else {
      Split(s[1..], t);
      assert (s + t)[0] == s[0] && (s + t)[1..] == s[1..] + t;
      Associative(if s[0].status == Free then s[0].ports else [], FreePorts(s[1..]), FreePorts(t));
      Associative(if s[0].status == Free then [] else [s[0]], Others(s[1..]), Others(t));
    }
  }

  lemma Associative<T>(a: seq<T>, b: seq<T>, c: seq<T>)
    ensures a + (b + c) == a + b + c
  {}

  lemma {:induction false} NoneFree(s: seq<Allocation>)
    requires forall i :: 0 <= i < |s| ==> s[i].status != Free
    ensures FreePorts(s) == [] && Others(s) == s
  {
    if s != [] {
      NoneFree(s[1..]);
    }
  }

  /** Taking the first free allocation out. */
  lemma FirstTaken(s: seq<Allocation>, k: nat)
    requires FirstFree(s) == Some(k)
    ensures FreePorts(s) == s[k].ports + FreePorts(s[..k] + s[k + 1..])
    ensures Others(s[..k] + s[k + 1..]) == Others(s)
  {
    var before, at, rest := s[..k], [s[k]], s[k + 1..];
    assert s == before + (at + rest);
    NoneFree(before);
    Split(before, at + rest);
    Split(at, rest);
    Split(before, rest);
    assert FreePorts(at) == s[k].ports && Others(at) == [] by {
      assert at[1..] == [];
    }
  }

  /** A claim succeeds exactly if there are ports enough, those at hand and those of free allocations together; it takes
      the first ones in that order, leaves every other allocation in place, and on failure leaves no free one. */
  lemma {:induction false} ClaimMeans(s: seq<Allocation>, ports: seq<uint16>, count: nat)
    ensures var c := ClaimFree(s, ports, count);
      && (c.status == InUse || c.status == InsufficientResources)
      && (c.status == InUse <==> |ports + FreePorts(s)| >= count)
      && (c.status == InUse ==> c.ports == (ports + FreePorts(s))[..count])
      && (c.status != InUse ==> c.ports == [] && c.allocations == Others(s))
      && Others(c.allocations) == Others(s)
      && (|ports| >= count ==> c.allocations == s)
    decreases |s|
  {
    if |ports| >= count {
      assert (ports + FreePorts(s))[..count] == ports[..count];
    } else {
      match FirstFree(s)
      case None => NoneFree(s);
      case Some(k) =>
        FirstTaken(s, k);
        var left := s[..k] + s[k + 1..];
        ClaimMeans(left, ports + s[k].ports, count);
        assert ports + s[k].ports + FreePorts(left) == ports + FreePorts(s);
    }
  }

  /** The ports of the configuration that nobody holds, each as often and in the order it is enumerated. */
  lemma UnusedMeans(first: seq<uint16>, p: uint16, rest: seq<uint16>, used: seq<uint16>)
    ensures Unused([], used) == []
    ensures Unused(first + [p] + rest, used) ==
      Unused(first, used) + (if p in used then [] else [p]) + Unused(rest, used)
  {
    UnusedSplit(first, [p] + rest, used);
    UnusedCons(p, rest, used);
    assert first + [p] + rest == first + ([p] + rest);
  }

  lemma {:induction false} UnusedSplit(a: seq<uint16>, b: seq<uint16>, used: seq<uint16>)
    ensures Unused(a + b, used) == Unused(a, used) + Unused(b, used)
  {
    if a == [] {
      assert a + b == b;
    } else {
      UnusedSplit(a[1..], b, used);
      assert (a + b)[0] == a[0] && (a + b)[1..] == a[1..] + b;
      Associative(if a[0] in used then [] else [a[0]], Unused(a[1..], used), Unused(b, used));
    }
  }
}
