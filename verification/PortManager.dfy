/** The port manager: its reconcile step over the list of port allocations. */
module PortManagers {
  import opened GoValues
  import opened PortIterators

  /** An object reference; the manager only compares them. */
  type Requester = string

  datatype Phase = InUse | Free | Cooldown | InvalidConfiguration | InsufficientResources

  datatype Allocation = Allocation(
    requester: Option<Requester>, ports: seq<uint16>, status: Phase, timeUnallocated: Option<int>)

  datatype Request = Request(requester: Requester, count: nat)

  datatype ManagerStatus = Ready | SystemConfigurationNotFound

  /** What reading the system configuration returned. */
  datatype ConfigRead = Found(ports: seq<IntOrString>, cooldown: int) | NotFound | ReadError

  datatype Outcome = Failed | Done | Requeue | RequeueAfter(seconds: int)

  /** Nanoseconds in a second, the unit of `timeUnallocated`. */
  const SECOND: int := 1_000_000_000

  // ---------- What each routine computes ----------

  predicate Wanted(spec: seq<Request>, r: Requester) {
    exists i :: 0 <= i < |spec| && spec[i].requester == r
  }

  predicate Needed(spec: seq<Request>, a: Allocation) {
    && (a.status.InUse? || a.status.InsufficientResources?)
    && a.requester.Some?
    && Wanted(spec, a.requester.value)
  }

  predicate Held(a: Allocation) {
    a.status.InUse? || a.status.Cooldown?
  }

  predicate Expired(a: Allocation, cooldown: int, now: int) {
    a.timeUnallocated.Some? && now - a.timeUnallocated.value >= cooldown * SECOND
  }

  /** The fate of one allocation in the cleanup; None when it is removed. */
  function CleanOne(spec: seq<Request>, cooldown: int, now: int, a: Allocation): Option<Allocation> {
    if Needed(spec, a) then Some(a)
    else if cooldown == 0 then None
    else if a.status.Cooldown? then (if Expired(a, cooldown, now) then None else Some(a))
    else if a.timeUnallocated.None? then Some(a.(timeUnallocated := Some(now), status := Cooldown))
    else Some(a)
  }

  function ToSeq<T>(o: Option<T>): seq<T> {
    match o
    case None => []
    case Some(x) => [x]
  }

  /** What the cleanup leaves of the first n allocations. */
  function CleanFirst(spec: seq<Request>, cooldown: int, now: int, s: seq<Allocation>, n: nat): seq<Allocation>
    requires n <= |s|
  {
    if n == 0 then []
    else CleanFirst(spec, cooldown, now, s, n - 1) + ToSeq(CleanOne(spec, cooldown, now, s[n - 1]))
  }

  function Clean(spec: seq<Request>, cooldown: int, now: int, s: seq<Allocation>): seq<Allocation> {
    CleanFirst(spec, cooldown, now, s, |s|)
  }

  function FindFrom(s: seq<Allocation>, r: Requester, i: nat): (k: Option<nat>)
    requires i <= |s|
    ensures k.Some? ==> i <= k.value < |s| && s[k.value].requester == Some(r)
    ensures k.Some? ==> forall j :: i <= j < k.value ==> s[j].requester != Some(r)
    ensures k.None? ==> forall j :: i <= j < |s| ==> s[j].requester != Some(r)
    decreases |s| - i
  {
    if i == |s| then None
    else if s[i].requester == Some(r) then Some(i)
    else FindFrom(s, r, i + 1)
  }

  /** The first allocation of a requester. */
  function FindIndex(s: seq<Allocation>, r: Requester): Option<nat> {
    FindFrom(s, r, 0)
  }

  function HeldFirst(s: seq<Allocation>, n: nat): seq<uint16>
    requires n <= |s|
  {
    if n == 0 then []
    else HeldFirst(s, n - 1) + if Held(s[n - 1]) then s[n - 1].ports else []
  }

  function HeldPorts(s: seq<Allocation>): seq<uint16> {
    HeldFirst(s, |s|)
  }

  function Unused(all: seq<uint16>, used: seq<uint16>): seq<uint16> {
    if all == [] then []
    else (if all[0] in used then [] else [all[0]]) + Unused(all[1..], used)
  }

  function FreeFrom(s: seq<Allocation>, i: nat): (k: Option<nat>)
    requires i <= |s|
    ensures k.Some? ==> i <= k.value < |s| && s[k.value].status.Free?
    ensures k.Some? ==> forall j :: i <= j < k.value ==> !s[j].status.Free?
    ensures k.None? ==> forall j :: i <= j < |s| ==> !s[j].status.Free?
    decreases |s| - i
  {
    if i == |s| then None
    else if s[i].status.Free? then Some(i)
    else FreeFrom(s, i + 1)
  }

  /** The first allocation in the Free phase. */
  function FirstFree(s: seq<Allocation>): Option<nat> {
    FreeFrom(s, 0)
  }

  datatype Claim = Claim(ports: seq<uint16>, status: Phase, allocations: seq<Allocation>)

  function ClaimFree(s: seq<Allocation>, ports: seq<uint16>, count: nat): Claim
    decreases |s|
  {
    if |ports| >= count then Claim(ports[..count], InUse, s)
    else
      match FirstFree(s)
      case None => Claim([], InsufficientResources, s)
      case Some(k) => ClaimFree(s[..k] + s[k + 1..], ports + s[k].ports, count)
  }

  function FindFree(s: seq<Allocation>, all: seq<uint16>, count: nat): Claim {
    ClaimFree(s, Unused(all, HeldPorts(s)), count)
  }

  datatype Allocated = Allocated(allocations: seq<Allocation>, unsatisfied: nat)

  /** One turn of the allocation loop. A slot found before ports were claimed is written after. */
  function AllocateOne(s: seq<Allocation>, request: Request, config: ConfigRead): Allocated {
    var k := FindIndex(s, request.requester);
    if k.Some? && s[k.value].status.InUse? then Allocated(s, 0)
    else
      var c := if config.Found? then FindFree(s, Enumerated(config.ports), request.count)
               else Claim([], InvalidConfiguration, s);
      var unsatisfied := if c.status.InUse? then 0 else 1;
      if k.None? then
        Allocated(c.allocations + [Allocation(Some(request.requester), c.ports, c.status, None)], unsatisfied)
      else if k.value < |c.allocations| then
        Allocated(c.allocations[k.value := c.allocations[k.value].(status := c.status, ports := c.ports)], unsatisfied)
      else Allocated(c.allocations, unsatisfied)
  }

  /** The first n turns of the loop. */
  function AllocateFirst(s: seq<Allocation>, spec: seq<Request>, n: nat, config: ConfigRead): Allocated
    requires n <= |spec|
  {
    if n == 0 then Allocated(s, 0)
    else
      var before := AllocateFirst(s, spec, n - 1, config);
      var one := AllocateOne(before.allocations, spec[n - 1], config);
      Allocated(one.allocations, before.unsatisfied + one.unsatisfied)
  }

  function AllocateAll(s: seq<Allocation>, spec: seq<Request>, config: ConfigRead): Allocated {
    AllocateFirst(s, spec, |spec|, config)
  }

  /** The world as one reconcile finds it. */
  datatype Env = Env(spec: seq<Request>, config: ConfigRead, now: int)

  function CooldownOf(config: ConfigRead): int {
    if config.Found? then config.cooldown else 0
  }

  function Cleaned(s: seq<Allocation>, e: Env): seq<Allocation> {
    Clean(e.spec, CooldownOf(e.config), e.now, s)
  }

  function Reconciled(s: seq<Allocation>, e: Env): seq<Allocation> {
    if e.config.ReadError? then s else AllocateAll(Cleaned(s, e), e.spec, e.config).allocations
  }

  function OutcomeOf(s: seq<Allocation>, e: Env): Outcome {
    if e.config.ReadError? then Failed
    else if AllocateAll(Cleaned(s, e), e.spec, e.config).unsatisfied > 0
      then RequeueAfter(CooldownOf(e.config) + 1)
    else if e.config.NotFound? then Requeue
    else Done
  }

  /** A cooling allocation always knows when it was released; the cleanup dereferences that time. */
  ghost predicate CoolingIsTimed(s: seq<Allocation>) {
    forall i :: 0 <= i < |s| && s[i].status.Cooldown? ==> s[i].timeUnallocated.Some?
  }

  // ---------- The reconciler ----------

  class PortManager {
    var spec: seq<Request>
    var status: ManagerStatus
    var allocations: seq<Allocation>

    constructor (spec: seq<Request>)
      ensures this.spec == spec && allocations == []
    {
      this.spec := spec;
      status := Ready;
      allocations := [];
    }

    method IsAllocationNeeded(a: Allocation) returns (needed: bool)
      ensures needed == Needed(spec, a)
    {
      if !a.status.InUse? && !a.status.InsufficientResources? {
        return false;
      }
      if a.requester.None? {
        return false;
      }
      for i := 0 to |spec|
        invariant forall j :: 0 <= j < i ==> spec[j].requester != a.requester.value
      {
        if a.requester.value == spec[i].requester {
          return true;
        }
      }
      return false;
    }

    /** The first pass of the cleanup: starts cooldowns in place and lists what is to go. */
    method MarkUnusedAllocations(cooldown: int, now: int) returns (toRemove: seq<nat>)
      requires CoolingIsTimed(allocations)
      modifies this`allocations
      ensures allocations == Marked(spec, cooldown, now, old(allocations))
      ensures toRemove == Doomed(spec, cooldown, now, old(allocations), |old(allocations)|)
    {
      toRemove := [];
      for idx := 0 to |allocations|
        invariant |allocations| == |old(allocations)|
        invariant forall i :: 0 <= i < idx ==> allocations[i] == MarkOne(spec, cooldown, now, old(allocations)[i])
        invariant forall i :: idx <= i < |allocations| ==> allocations[i] == old(allocations)[i]
        invariant toRemove == Doomed(spec, cooldown, now, old(allocations), idx)
      {
        var a := allocations[idx];
        var needed := IsAllocationNeeded(a);
        if !needed {
          if cooldown == 0 {
            toRemove := toRemove + [idx];
          } else if a.status.Cooldown? {
            if now - a.timeUnallocated.value >= cooldown * SECOND {
              toRemove := toRemove + [idx];
            }
          } else if a.timeUnallocated.None? {
            allocations := allocations[idx := a.(timeUnallocated := Some(now), status := Cooldown)];
          }
        }
      }
    }

    /** The second pass: deletes back to front, so that earlier positions stay right. */
    method RemoveAllocations(toRemove: seq<nat>)
      requires Increasing(toRemove)
      requires forall i :: 0 <= i < |toRemove| ==> toRemove[i] < |allocations|
      modifies this`allocations
      ensures allocations == Without(old(allocations), toRemove, |toRemove|)
    {
      for n := 0 to |toRemove|
        invariant forall i :: 0 <= i < |toRemove| - n ==> toRemove[i] < |allocations|
        invariant Without(allocations, toRemove, |toRemove| - n) == Without(old(allocations), toRemove, |toRemove|)
      {
        var failed := toRemove[|toRemove| - 1 - n];
        allocations := allocations[..failed] + allocations[failed + 1..];
      }
    }

    method CleanupUnusedAllocations(cooldown: int, now: int)
      requires CoolingIsTimed(allocations)
      modifies this`allocations
      ensures allocations == Clean(spec, cooldown, now, old(allocations))
    {
      assert allocations[..|allocations|] == allocations;
      MarkedThenRemoved(spec, cooldown, now, allocations, |allocations|);
      var toRemove := MarkUnusedAllocations(cooldown, now);
      RemoveAllocations(toRemove);
    }

    method FindAllocationStatus(r: Requester) returns (k: Option<nat>)
      ensures k == FindIndex(allocations, r)
    {
      for i := 0 to |allocations|
        invariant forall j :: 0 <= j < i ==> allocations[j].requester != Some(r)
      {
        if allocations[i].requester.None? {
          continue;
        }
        if allocations[i].requester.value == r {
          return Some(i);
        }
      }
      return None;
    }

    method PortsInUse() returns (used: seq<uint16>)
      ensures used == HeldPorts(allocations)
    {
      used := [];
      for i := 0 to |allocations|
        invariant used == HeldFirst(allocations, i)
      {
        if allocations[i].status.InUse? || allocations[i].status.Cooldown? {
          used := used + allocations[i].ports;
        }
      }
    }

    /** Takes the ports of the first free allocation, or reports that there is none. */
    method ClaimPortsFromFreeAllocation(ports: seq<uint16>) returns (more: bool, claimed: seq<uint16>)
      modifies this`allocations
      ensures more == FirstFree(old(allocations)).Some?
      ensures !more ==> claimed == ports && allocations == old(allocations)
      ensures more ==>
        var k := FirstFree(old(allocations)).value;
        && claimed == ports + old(allocations)[k].ports
        && allocations == old(allocations)[..k] + old(allocations)[k + 1..]
    {
      for idx := 0 to |allocations|
        invariant allocations == old(allocations)
        invariant forall j :: 0 <= j < idx ==> !allocations[j].status.Free?
      {
        if allocations[idx].status.Free? {
          claimed := ports + allocations[idx].ports;
          allocations := allocations[..idx] + allocations[idx + 1..];
          return true, claimed;
        }
      }
      return false, ports;
    }

    /** Walks the configured ports, keeping the first `count` that nobody holds. */
    method ScanConfiguration(config: seq<IntOrString>, used: seq<uint16>, count: nat) returns (ports: seq<uint16>)
      ensures ports <= Unused(Enumerated(config), used)
      ensures |ports| < count ==> ports == Unused(Enumerated(config), used)
    {
      ghost var pending := Enumerated(config);
      ports := [];
      var itr := new PortIterator(config);
      var port := itr.Next();
      while port != INVALID_PORT
        invariant fresh(itr)
        invariant if port == INVALID_PORT then pending == [] else itr.Valid() && pending == [port] + itr.Rest()
        invariant ports + Unused(pending, used) == Unused(Enumerated(config), used)
        decreases |pending|
      {
        ghost var rest := itr.Rest();
        ScanStep(ports, port, rest, used);
        if port !in used {
          ports := ports + [port];
          if |ports| >= count {
            break;
          }
        }
        port := itr.Next();
        pending := rest;
      }
    }

    method FindFreePorts(config: seq<IntOrString>, count: nat) returns (ports: seq<uint16>, found: Phase)
      modifies this`allocations
      ensures Claim(ports, found, allocations) == FindFree(old(allocations), Enumerated(config), count)
    {
      var used := PortsInUse();
      ports := ScanConfiguration(config, used, count);
      if |ports| >= count {
        return ports[..count], InUse;
      }
      while |ports| < count
        invariant ClaimFree(allocations, ports, count) == FindFree(old(allocations), Enumerated(config), count)
        decreases |allocations|
      {
        var more: bool;
        more, ports := ClaimPortsFromFreeAllocation(ports);
        if !more {
          return [], InsufficientResources;
        }
      }
      return ports[..count], InUse;
    }

    /** One turn of the reconcile loop. */
    method Allocate(request: Request, config: ConfigRead) returns (satisfied: bool)
      modifies this`allocations
      ensures Allocated(allocations, if satisfied then 0 else 1) == AllocateOne(old(allocations), request, config)
    {
      var slot := FindAllocationStatus(request.requester);
      if slot.Some? && allocations[slot.value].status.InUse? {
        return true;
      }
      var ports, found := [], InvalidConfiguration;
      if config.Found? {
        ports, found := FindFreePorts(config.ports, request.count);
      }
      if slot.None? {
        allocations := allocations + [Allocation(Some(request.requester), ports, found, None)];
      } else if slot.value < |allocations| {
        allocations := allocations[slot.value := allocations[slot.value].(status := found, ports := ports)];
      }
      return found.InUse?;
    }

    /** The reconcile loop: counts the requests it could not serve. */
    method AllocateRequests(config: ConfigRead) returns (unsatisfied: nat)
      modifies this`allocations
      ensures Allocated(allocations, unsatisfied) == AllocateAll(old(allocations), spec, config)
    {
      unsatisfied := 0;
      for i := 0 to |spec|
        invariant Allocated(allocations, unsatisfied) == AllocateFirst(old(allocations), spec, i, config)
      {
        var satisfied := Allocate(spec[i], config);
        if !satisfied {
          unsatisfied := unsatisfied + 1;
        }
      }
    }

    method Reconcile(config: ConfigRead, now: int) returns (outcome: Outcome)
      requires CoolingIsTimed(allocations)
      modifies this`status, this`allocations
      ensures allocations == Reconciled(old(allocations), Env(spec, config, now))
      ensures outcome == OutcomeOf(old(allocations), Env(spec, config, now))
      ensures status == if config.NotFound? then SystemConfigurationNotFound else Ready
    {
      var unsatisfied := 0;
      status := Ready;
      var cooldown := 0;
      var result := Done;
      match config {
        case ReadError => return Failed;
        case NotFound =>
          status := SystemConfigurationNotFound;
          result := Requeue;
        case Found(_, seconds) => cooldown := seconds;
      }
      CleanupUnusedAllocations(cooldown, now);
      unsatisfied := AllocateRequests(config);
      if unsatisfied > 0 {
        return RequeueAfter(cooldown + 1);
      }
      return result;
    }
  }

  lemma UnusedCons(p: uint16, rest: seq<uint16>, used: seq<uint16>)
    ensures Unused([p] + rest, used) == (if p in used then [] else [p]) + Unused(rest, used)
  {
    assert ([p] + rest)[1..] == rest;
  }

  lemma ScanStep(ports: seq<uint16>, p: uint16, rest: seq<uint16>, used: seq<uint16>)
    ensures ports + Unused([p] + rest, used) == (if p in used then ports else ports + [p]) + Unused(rest, used)
  {
    UnusedCons(p, rest, used);
    if p in used {
      assert [] + Unused(rest, used) == Unused(rest, used);
    } else {
      assert ports + ([p] + Unused(rest, used)) == ports + [p] + Unused(rest, used);
    }
  }

  // ---------- The cleanup's two passes ----------

  function MarkOne(spec: seq<Request>, cooldown: int, now: int, a: Allocation): Allocation {
    var c := CleanOne(spec, cooldown, now, a);
    if c.Some? then c.value else a
  }

  function Marked(spec: seq<Request>, cooldown: int, now: int, s: seq<Allocation>): seq<Allocation> {
    seq(|s|, i requires 0 <= i < |s| => MarkOne(spec, cooldown, now, s[i]))
  }

  /** The positions below n that the cleanup gives up. */
  function Doomed(spec: seq<Request>, cooldown: int, now: int, s: seq<Allocation>, n: nat): (d: seq<nat>)
    requires n <= |s|
    ensures Increasing(d)
    ensures forall i :: 0 <= i < |d| ==> d[i] < n
  {
    if n == 0 then []
    else
      Doomed(spec, cooldown, now, s, n - 1) + if CleanOne(spec, cooldown, now, s[n - 1]).None? then [n - 1] else []
  }

  predicate Increasing(d: seq<nat>) {
    forall i, j :: 0 <= i < j < |d| ==> d[i] < d[j]
  }

  /** Deletes the first n listed positions, the last of them first. */
  function Without(s: seq<Allocation>, d: seq<nat>, n: nat): seq<Allocation>
    requires n <= |d| && Increasing(d)
    requires forall i :: 0 <= i < n ==> d[i] < |s|
    decreases n
  {
    if n == 0 then s
    else
      var k := d[n - 1];
      Without(s[..k] + s[k + 1..], d, n - 1)
  }

  lemma {:induction false} WithoutAppend(s: seq<Allocation>, x: Allocation, d: seq<nat>, n: nat)
    requires n <= |d| && Increasing(d)
    requires forall i :: 0 <= i < n ==> d[i] < |s|
    ensures Without(s + [x], d, n) == Without(s, d, n) + [x]
    decreases n
  {
    if n > 0 {
      var k := d[n - 1];
      var s' := s[..k] + s[k + 1..];
      assert (s + [x])[..k] + (s + [x])[k + 1..] == s' + [x];
      WithoutAppend(s', x, d, n - 1);
    }
  }

  /** Only the first n positions matter. */
  lemma {:induction false} WithoutPrefix(s: seq<Allocation>, d: seq<nat>, e: seq<nat>, n: nat)
    requires n <= |d| && n <= |e| && Increasing(d) && Increasing(e)
    requires forall i :: 0 <= i < n ==> d[i] == e[i] < |s|
    ensures Without(s, d, n) == Without(s, e, n)
    decreases n
  {
    if n > 0 {
      var k := d[n - 1];
      WithoutPrefix(s[..k] + s[k + 1..], d, e, n - 1);
    }
  }

  /** One more position: either it is deleted first, or it stays at the end. */
  lemma WithoutStep(m: seq<Allocation>, x: Allocation, d: seq<nat>, doomed: bool)
    requires Increasing(d)
    requires forall i :: 0 <= i < |d| ==> d[i] < |m|
    ensures var e := d + if doomed then [|m|] else [];
      && Increasing(e)
      && Without(m + [x], e, |e|) == Without(m, d, |d|) + if doomed then [] else [x]
  {
    if doomed {
      var all, e := m + [x], d + [|m|];
      assert all[..|m|] + all[|m| + 1..] == m;
      WithoutPrefix(m, e, d, |d|);
      assert Without(m, d, |d|) + [] == Without(m, d, |d|);
    } else {
      WithoutAppend(m, x, d, |d|);
      assert d + [] == d;
    }
  }

  /** Marking in place and deleting back to front is the filter the cleanup is meant to be. */
  lemma {:induction false} MarkedThenRemoved(spec: seq<Request>, cooldown: int, now: int, s: seq<Allocation>, n: nat)
    requires n <= |s|
    ensures var d := Doomed(spec, cooldown, now, s, n);
      Without(Marked(spec, cooldown, now, s[..n]), d, |d|) == CleanFirst(spec, cooldown, now, s, n)
  {
    if n > 0 {
      var m, d := Marked(spec, cooldown, now, s[..n - 1]), Doomed(spec, cooldown, now, s, n - 1);
      var c, x := CleanOne(spec, cooldown, now, s[n - 1]), MarkOne(spec, cooldown, now, s[n - 1]);
      assert Marked(spec, cooldown, now, s[..n]) == m + [x];
      MarkedThenRemoved(spec, cooldown, now, s, n - 1);
      WithoutStep(m, x, d, c.None?);
    }
  }
}
