/** What every run of the port manager keeps, and what it does not. */
module PortManagerRuns {
  import opened GoValues
  import opened PortIterators
  import opened PortManagers

  // ---------- The invariant ----------

  predicate Sound(a: Allocation) {
    && !a.status.Free?
    && a.requester.Some?
    && (a.status.Cooldown? ==> a.timeUnallocated.Some?)
    && (!Held(a) ==> a.ports == [])
  }

  predicate Apart(a: Allocation, b: Allocation) {
    forall p :: p in a.ports ==> p !in b.ports
  }

  /** Each requester appears once, and no port belongs to two allocations. */
  ghost predicate Inv(s: seq<Allocation>) {
    && (forall i :: 0 <= i < |s| ==> Sound(s[i]))
    && (forall i, j :: 0 <= i < j < |s| ==> s[i].requester != s[j].requester)
    && (forall i, j :: 0 <= i < |s| && 0 <= j < |s| && i != j ==> Apart(s[i], s[j]))
  }

  /** The allocation the manager finds for a requester. */
  function Lookup(s: seq<Allocation>, r: Requester): Option<Allocation> {
    var k := FindIndex(s, r);
    if k.Some? then Some(s[k.value]) else None
  }

  predicate InUseNow(o: Option<Allocation>) {
    o.Some? && o.value.status.InUse?
  }

  function ReleaseTime(o: Option<Allocation>): Option<int> {
    if o.Some? then o.value.timeUnallocated else None
  }

  /** How a request that holds no ports is answered: with ports, or as the configuration makes it. */
  predicate Answered(a: Allocation, config: ConfigRead) {
    a.status.InUse? || a.status == if config.Found? then InsufficientResources else InvalidConfiguration
  }

  lemma LookupAt(s: seq<Allocation>, k: nat)
    requires Inv(s) && k < |s|
    ensures FindIndex(s, s[k].requester.value) == Some(k)
    ensures Lookup(s, s[k].requester.value) == Some(s[k])
  {}

  // ---------- The cleanup ----------

  lemma {:induction false} CleanedOrigin(
    spec: seq<Request>, cooldown: int, now: int, s: seq<Allocation>, n: nat, c: Allocation) returns (i: nat)
    requires n <= |s| && c in CleanFirst(spec, cooldown, now, s, n)
    ensures i < n && CleanOne(spec, cooldown, now, s[i]) == Some(c)
    ensures s[i].requester == c.requester && s[i].ports == c.ports
  {
    i := n - 1;
    if CleanOne(spec, cooldown, now, s[i]) != Some(c) {
      i := CleanedOrigin(spec, cooldown, now, s, i, c);
    }
  }

  lemma InvSnoc(s: seq<Allocation>, a: Allocation)
    requires Inv(s) && Sound(a)
    requires forall b :: b in s ==> b.requester != a.requester && Apart(a, b) && Apart(b, a)
    ensures Inv(s + [a])
  {
    var t := s + [a];
    forall i, j | 0 <= i < |t| && 0 <= j < |t| && i != j
      ensures t[i].requester != t[j].requester && Apart(t[i], t[j])
    {
      if i == |s| { assert t[j] in s; } else if j == |s| { assert t[i] in s; }
    }
  }

  lemma {:induction false} CleanFirstKeepsInv(spec: seq<Request>, cooldown: int, now: int, s: seq<Allocation>, n: nat)
    requires Inv(s) && n <= |s|
    ensures Inv(CleanFirst(spec, cooldown, now, s, n))
  {
    if n > 0 {
      CleanFirstKeepsInv(spec, cooldown, now, s, n - 1);
      var before := CleanFirst(spec, cooldown, now, s, n - 1);
      var c := CleanOne(spec, cooldown, now, s[n - 1]);
      if c.Some? {
        forall b | b in before
          ensures b.requester != c.value.requester && Apart(b, c.value) && Apart(c.value, b)
        {
          var i := CleanedOrigin(spec, cooldown, now, s, n - 1, b);
          assert s[i].requester != s[n - 1].requester && Apart(s[i], s[n - 1]) && Apart(s[n - 1], s[i]);
        }
        InvSnoc(before, c.value);
      }
    }
  }

  lemma LookupSnoc(s: seq<Allocation>, a: Allocation, r: Requester)
    ensures Lookup(s + [a], r) ==
      if Lookup(s, r).Some? then Lookup(s, r) else if a.requester == Some(r) then Some(a) else None
  {
    var t := s + [a];
    assert forall i :: 0 <= i < |s| ==> t[i] == s[i];
    assert t[|s|] == a;
  }

  lemma {:induction false} LookupCleaned(
    spec: seq<Request>, cooldown: int, now: int, s: seq<Allocation>, n: nat, r: Requester)
    requires Inv(s) && n <= |s|
    ensures var k := FindIndex(s, r);
      Lookup(CleanFirst(spec, cooldown, now, s, n), r) ==
        if k.Some? && k.value < n then CleanOne(spec, cooldown, now, s[k.value]) else None
  {
    if n > 0 {
      LookupCleaned(spec, cooldown, now, s, n - 1, r);
      var before := CleanFirst(spec, cooldown, now, s, n - 1);
      var c := CleanOne(spec, cooldown, now, s[n - 1]);
      if c.Some? {
        LookupSnoc(before, c.value, r);
      } else {
        assert before + [] == before;
      }
    }
  }

  // ---------- One request ----------

  lemma {:induction false} InUnused(all: seq<uint16>, used: seq<uint16>, p: uint16)
    ensures p in Unused(all, used) <==> p in all && p !in used
  {
    if all != [] {
      InUnused(all[1..], used, p);
      assert all == [all[0]] + all[1..];
    }
  }

  lemma {:induction false} InHeldFirst(s: seq<Allocation>, n: nat, p: uint16)
    requires n <= |s|
    ensures p in HeldFirst(s, n) <==> exists i :: 0 <= i < n && Held(s[i]) && p in s[i].ports
  {
    if n > 0 {
      InHeldFirst(s, n - 1, p);
    }
  }

  /** With no allocation in the Free phase, a claim comes from the configuration or fails. */
  lemma ClaimOf(s: seq<Allocation>, all: seq<uint16>, count: nat)
    requires Inv(s)
    ensures var free := Unused(all, HeldPorts(s));
      FindFree(s, all, count) ==
        if |free| >= count then Claim(free[..count], InUse, s) else Claim([], InsufficientResources, s)
    ensures forall p :: p in FindFree(s, all, count).ports ==> p in all
    ensures forall i, p :: 0 <= i < |s| && p in s[i].ports ==> p !in FindFree(s, all, count).ports
  {
    forall p | p in FindFree(s, all, count).ports
      ensures p in all && forall i :: 0 <= i < |s| ==> p !in s[i].ports
    {
      InUnused(all, HeldPorts(s), p);
      InHeldFirst(s, |s|, p);
    }
  }

  /** The entry a request leaves behind. */
  function Granted(s: seq<Allocation>, request: Request, config: ConfigRead): Allocation {
    var was := Lookup(s, request.requester);
    if was.Some? && was.value.status.InUse? then was.value
    else
      var c := if config.Found? then FindFree(s, Enumerated(config.ports), request.count)
               else Claim([], InvalidConfiguration, s);
      Allocation(Some(request.requester), c.ports, c.status, if was.Some? then was.value.timeUnallocated else None)
  }

  lemma GrantedIsSound(s: seq<Allocation>, request: Request, config: ConfigRead)
    requires Inv(s)
    ensures var g := Granted(s, request, config);
      && Sound(g)
      && Answered(g, config)
      && g.requester == Some(request.requester)
      && g.timeUnallocated == ReleaseTime(Lookup(s, request.requester))
      && (InUseNow(Lookup(s, request.requester)) ==> Some(g) == Lookup(s, request.requester))
  {
    if config.Found? {
      ClaimOf(s, Enumerated(config.ports), request.count);
    }
  }

  lemma GrantedIsApart(s: seq<Allocation>, request: Request, config: ConfigRead, i: nat)
    requires Inv(s) && i < |s| && s[i].requester != Some(request.requester)
    ensures Apart(s[i], Granted(s, request, config)) && Apart(Granted(s, request, config), s[i])
  {
    if !InUseNow(Lookup(s, request.requester)) && config.Found? {
      ClaimOf(s, Enumerated(config.ports), request.count);
    }
  }

  lemma AllocateOneShape(s: seq<Allocation>, request: Request, config: ConfigRead)
    requires Inv(s)
    ensures var g := Granted(s, request, config);
      AllocateOne(s, request, config) == Allocated(
        match FindIndex(s, request.requester) case None => s + [g] case Some(k) => s[k := g],
        if g.status.InUse? then 0 else 1)
  {
    if config.Found? {
      ClaimOf(s, Enumerated(config.ports), request.count);
    }
  }

  lemma PutKeepsInv(s: seq<Allocation>, k: Option<nat>, g: Allocation)
    requires Inv(s) && Sound(g) && k == FindIndex(s, g.requester.value)
    requires forall i :: 0 <= i < |s| && s[i].requester != g.requester ==> Apart(s[i], g) && Apart(g, s[i])
    ensures Inv(if k.Some? then s[k.value := g] else s + [g])
  {
    if k.None? {
      InvSnoc(s, g);
    } else {
      LookupAt(s, k.value);
    }
  }

  lemma AllocateOneKeepsInv(s: seq<Allocation>, request: Request, config: ConfigRead)
    requires Inv(s)
    ensures Inv(AllocateOne(s, request, config).allocations)
  {
    AllocateOneShape(s, request, config);
    GrantedIsSound(s, request, config);
    forall i | 0 <= i < |s| && s[i].requester != Some(request.requester)
      ensures Apart(s[i], Granted(s, request, config)) && Apart(Granted(s, request, config), s[i])
    {
      GrantedIsApart(s, request, config, i);
    }
    PutKeepsInv(s, FindIndex(s, request.requester), Granted(s, request, config));
  }

  lemma LookupAllocated(s: seq<Allocation>, request: Request, config: ConfigRead, r: Requester)
    requires Inv(s)
    ensures Lookup(AllocateOne(s, request, config).allocations, r) ==
      if r == request.requester then Some(Granted(s, request, config)) else Lookup(s, r)
  {
    AllocateOneShape(s, request, config);
    AllocateOneKeepsInv(s, request, config);
    var k := FindIndex(s, request.requester);
    var g := Granted(s, request, config);
    var after := AllocateOne(s, request, config).allocations;
    if r == request.requester {
      var slot := if k.Some? then k.value else |s|;
      assert after[slot] == g;
      LookupAt(after, slot);
    } else {
      var j := FindIndex(s, r);
      if j.Some? {
        assert after[j.value] == s[j.value];
        LookupAt(after, j.value);
      } else {
        forall i | 0 <= i < |after| ensures after[i].requester != Some(r) {
          if i < |s| && k != Some(i) { assert after[i] == s[i]; } else { assert after[i] == g; }
        }
      }
    }
  }

  // ---------- One reconcile ----------

  lemma {:induction false} AllocateFirstKeepsInv(s: seq<Allocation>, spec: seq<Request>, n: nat, config: ConfigRead)
    requires Inv(s) && n <= |spec|
    ensures Inv(AllocateFirst(s, spec, n, config).allocations)
  {
    if n > 0 {
      AllocateFirstKeepsInv(s, spec, n - 1, config);
      AllocateOneKeepsInv(AllocateFirst(s, spec, n - 1, config).allocations, spec[n - 1], config);
    }
  }

  predicate AskedBefore(spec: seq<Request>, n: nat, r: Requester)
    requires n <= |spec|
  {
    exists i :: 0 <= i < n && spec[i].requester == r
  }

  /** One turn of the loop as one requester sees it. */
  lemma RequestSeenBy(s: seq<Allocation>, request: Request, config: ConfigRead, r: Requester)
    requires Inv(s)
    ensures var after := Lookup(AllocateOne(s, request, config).allocations, r);
      && (r != request.requester || InUseNow(Lookup(s, r)) ==> after == Lookup(s, r))
      && (r == request.requester ==> after.Some? && Answered(after.value, config))
      && ReleaseTime(after) == ReleaseTime(Lookup(s, r))
  {
    LookupAllocated(s, request, config, r);
    GrantedIsSound(s, request, config);
  }

  /** The loop leaves alone whoever does not ask and whoever already holds ports, and answers everyone else. */
  lemma {:induction false} LookupAllocateFirst(
    s: seq<Allocation>, spec: seq<Request>, n: nat, config: ConfigRead, r: Requester, done: Allocated)
    requires Inv(s) && n <= |spec| && done == AllocateFirst(s, spec, n, config)
    ensures var after := Lookup(done.allocations, r);
      && (!AskedBefore(spec, n, r) || InUseNow(Lookup(s, r)) ==> after == Lookup(s, r))
      && (AskedBefore(spec, n, r) ==> after.Some? && Answered(after.value, config))
      && ReleaseTime(after) == ReleaseTime(Lookup(s, r))
  {
    if n > 0 {
      var before := AllocateFirst(s, spec, n - 1, config);
      AllocateFirstKeepsInv(s, spec, n - 1, config);
      LookupAllocateFirst(s, spec, n - 1, config, r, before);
      RequestSeenBy(before.allocations, spec[n - 1], config, r);
      assert AskedBefore(spec, n, r) <==> AskedBefore(spec, n - 1, r) || spec[n - 1].requester == r;
    }
  }

  /** What the cleanup leaves of a requester's allocation. */
  function AfterCleanup(s: seq<Allocation>, e: Env, r: Requester): Option<Allocation> {
    match Lookup(s, r)
    case None => None
    case Some(a) => CleanOne(e.spec, CooldownOf(e.config), e.now, a)
  }

  lemma ReconcileKeepsInv(s: seq<Allocation>, e: Env)
    requires Inv(s)
    ensures Inv(Reconciled(s, e))
  {
    CleanFirstKeepsInv(e.spec, CooldownOf(e.config), e.now, s, |s|);
    AllocateFirstKeepsInv(Cleaned(s, e), e.spec, |e.spec|, e.config);
  }

  /** The whole reconcile as one requester sees it. */
  lemma LookupReconciled(s: seq<Allocation>, e: Env, r: Requester)
    requires Inv(s) && !e.config.ReadError?
    ensures var cleaned, after := AfterCleanup(s, e, r), Lookup(Reconciled(s, e), r);
      && (!Wanted(e.spec, r) || InUseNow(cleaned) ==> after == cleaned)
      && (Wanted(e.spec, r) ==> after.Some? && Answered(after.value, e.config))
      && ReleaseTime(after) == ReleaseTime(cleaned)
  {
    CleanFirstKeepsInv(e.spec, CooldownOf(e.config), e.now, s, |s|);
    LookupCleaned(e.spec, CooldownOf(e.config), e.now, s, |s|, r);
    LookupAllocateFirst(Cleaned(s, e), e.spec, |e.spec|, e.config, r, AllocateAll(Cleaned(s, e), e.spec, e.config));
  }

  // ---------- Whole runs ----------

  /** Reconciles one after another; the requests, the configuration and the clock change freely in between. */
  function Run(s: seq<Allocation>, envs: seq<Env>): seq<Allocation> {
    if envs == [] then s else Reconciled(Run(s, envs[..|envs| - 1]), envs[|envs| - 1])
  }

  lemma {:induction false} RunKeepsInv(s: seq<Allocation>, envs: seq<Env>)
    requires Inv(s)
    ensures Inv(Run(s, envs))
  {
    if envs != [] {
      RunKeepsInv(s, envs[..|envs| - 1]);
      ReconcileKeepsInv(Run(s, envs[..|envs| - 1]), envs[|envs| - 1]);
    }
  }

  /** Safety: from an empty status, no run ever lists a port twice under different allocations. */
  lemma NoPortHasTwoOwners(envs: seq<Env>, i: nat, j: nat, p: uint16)
    requires i < |Run([], envs)| && j < |Run([], envs)|
    requires p in Run([], envs)[i].ports && p in Run([], envs)[j].ports
    ensures i == j
  {
    RunKeepsInv([], envs);
    assert Apart(Run([], envs)[i], Run([], envs)[j]) || i == j;
  }

  /** The reconcile's precondition holds in every run, and the free list it searches is always empty. */
  lemma CoolingIsTimedInEveryRun(envs: seq<Env>)
    ensures CoolingIsTimed(Run([], envs))
    ensures FirstFree(Run([], envs)) == None
  {
    RunKeepsInv([], envs);
  }

  /** Stability: ports in use stay the same ports for as long as their requester keeps asking. */
  lemma {:induction false} PortsInUseAreStable(s: seq<Allocation>, envs: seq<Env>, r: Requester)
    requires Inv(s)
    requires Lookup(s, r).Some? && Lookup(s, r).value.status.InUse?
    requires forall e :: e in envs ==> Wanted(e.spec, r)
    ensures Lookup(Run(s, envs), r) == Lookup(s, r)
  {
    if envs != [] {
      var front, e := envs[..|envs| - 1], envs[|envs| - 1];
      PortsInUseAreStable(s, front, r);
      RunKeepsInv(s, front);
      assert e in envs;
      if !e.config.ReadError? {
        LookupReconciled(Run(s, front), e, r);
      }
    }
  }

  /** The reconcile reaches the cleanup and finds r not asked for. */
  predicate Unasked(e: Env, r: Requester) {
    !e.config.ReadError? && !Wanted(e.spec, r)
  }

  /** A reconcile that leaves an allocation with ports as it is. */
  predicate Leaves(e: Env, a: Allocation, r: Requester) {
    if a.status.Cooldown?
      then e.config.ReadError?
        || (e.config.Found? && e.config.cooldown != 0 && !Wanted(e.spec, r) && !Expired(a, e.config.cooldown, e.now))
      else Unasked(e, r) ==> CooldownOf(e.config) != 0 && a.timeUnallocated.Some?
  }

  /** A cooldown continues through a reconcile exactly if the configuration is there and sets a cooldown, that cooldown
      has not run out, and nobody asks again under that name; or if reading the configuration fails. */
  lemma CoolingSurvivesIff(s: seq<Allocation>, e: Env, r: Requester)
    requires Inv(s) && Lookup(s, r).Some? && Lookup(s, r).value.status.Cooldown?
    ensures Lookup(s, r).value.timeUnallocated.Some?
    ensures var released := Lookup(s, r).value.timeUnallocated.value;
      Lookup(Reconciled(s, e), r) == Lookup(s, r) <==>
        || e.config.ReadError?
        || (e.config.Found? && e.config.cooldown != 0 && !Wanted(e.spec, r)
            && e.now - released < e.config.cooldown * 1_000_000_000)
  {
    if !e.config.ReadError? {
      LookupReconciled(s, e, r);
    }
  }

  /** Its ports are given up, with nothing left under that name, exactly if nobody asks again and the cooldown has run
      out or there is none: the configuration sets zero, or is missing. */
  lemma CoolingEndsIff(s: seq<Allocation>, e: Env, r: Requester)
    requires Inv(s) && Lookup(s, r).Some? && Lookup(s, r).value.status.Cooldown?
    ensures Lookup(s, r).value.timeUnallocated.Some?
    ensures var released := Lookup(s, r).value.timeUnallocated.value;
      Lookup(Reconciled(s, e), r) == None <==>
        && !e.config.ReadError? && !Wanted(e.spec, r)
        && (e.config.NotFound? || e.config.cooldown == 0 || e.now - released >= e.config.cooldown * 1_000_000_000)
  {
    if !e.config.ReadError? {
      LookupReconciled(s, e, r);
    }
  }

  /** What becomes of ports in use: they begin to cool exactly if nobody asks for them, there is a cooldown, and they
      never cooled before; they are given up at once exactly if nobody asks and there is no cooldown; else they stay. */
  lemma InUseBecomes(s: seq<Allocation>, e: Env, r: Requester)
    requires Inv(s) && Lookup(s, r).Some? && Lookup(s, r).value.status.InUse?
    ensures var a, after := Lookup(s, r).value, Lookup(Reconciled(s, e), r);
      && (after == Some(a.(status := Cooldown, timeUnallocated := Some(e.now))) <==>
            Unasked(e, r) && CooldownOf(e.config) != 0 && a.timeUnallocated.None?)
      && (after == None <==> Unasked(e, r) && CooldownOf(e.config) == 0)
      && (after == Some(a) <==> !Unasked(e, r) || (CooldownOf(e.config) != 0 && a.timeUnallocated.Some?))
  {
    if !e.config.ReadError? {
      LookupReconciled(s, e, r);
    }
  }

  /** The configuration sets a cooldown; a missing one sets none. */
  predicate HasCooldown(e: Env) {
    e.config.Found? && e.config.cooldown != 0
  }

  /** What becomes of a request that waits for ports. As long as it is made, its release time stays as it is, whether it
      is served or goes on waiting; once withdrawn it begins to cool, goes or stays exactly as ports in use would. */
  lemma WaitingBecomes(s: seq<Allocation>, e: Env, r: Requester)
    requires Inv(s) && Lookup(s, r).Some? && Lookup(s, r).value.status == InsufficientResources
    ensures var a, after := Lookup(s, r).value, Lookup(Reconciled(s, e), r);
      && (e.config.ReadError? ==> after == Some(a))
      && (!e.config.ReadError? && Wanted(e.spec, r) ==>
            after.Some? && Answered(after.value, e.config) && after.value.timeUnallocated == a.timeUnallocated)
      && (Unasked(e, r) ==>
            after == if !HasCooldown(e) then None
                     else if a.timeUnallocated.Some? then Some(a)
                     else Some(a.(status := Cooldown, timeUnallocated := Some(e.now))))
  {
    if !e.config.ReadError? {
      LookupReconciled(s, e, r);
    }
  }

  /** What becomes of a request that was turned down for want of a configuration. Made again, it counts as released: its
      release time is set if a cooldown is in force and it had none, and forgotten if no cooldown is. */
  lemma RefusedBecomes(s: seq<Allocation>, e: Env, r: Requester)
    requires Inv(s) && Lookup(s, r).Some? && Lookup(s, r).value.status == InvalidConfiguration
    ensures var a, after := Lookup(s, r).value, Lookup(Reconciled(s, e), r);
      var time := if !HasCooldown(e) then None else if a.timeUnallocated.Some? then a.timeUnallocated else Some(e.now);
      && (e.config.ReadError? ==> after == Some(a))
      && (!e.config.ReadError? && Wanted(e.spec, r) ==>
            after.Some? && Answered(after.value, e.config) && after.value.timeUnallocated == time)
      && (Unasked(e, r) ==>
            after == if !HasCooldown(e) then None
                     else if a.timeUnallocated.Some? then Some(a)
                     else Some(a.(status := Cooldown, timeUnallocated := Some(e.now))))
  {
    if !e.config.ReadError? {
      LookupReconciled(s, e, r);
    }
  }

  /** What becomes of cooling ports that are asked for again under the same name: their time is kept while the cooldown
      runs, and forgotten once it has run out or there is none. */
  lemma CoolingAskedAgain(s: seq<Allocation>, e: Env, r: Requester)
    requires Inv(s) && Lookup(s, r).Some? && Lookup(s, r).value.status == Cooldown
    requires !e.config.ReadError? && Wanted(e.spec, r)
    ensures Lookup(s, r).value.timeUnallocated.Some?
    ensures var time, after := Lookup(s, r).value.timeUnallocated, Lookup(Reconciled(s, e), r);
      && after.Some? && Answered(after.value, e.config)
      && after.value.timeUnallocated ==
           if HasCooldown(e) && e.now - time.value < e.config.cooldown * 1_000_000_000 then time else None
  {
    LookupReconciled(s, e, r);
  }

  /** A first request is answered and carries no release time. */
  lemma NewcomerBecomes(s: seq<Allocation>, e: Env, r: Requester)
    requires Inv(s) && Lookup(s, r) == None && !e.config.ReadError? && Wanted(e.spec, r)
    ensures var after := Lookup(Reconciled(s, e), r);
      after.Some? && Answered(after.value, e.config) && after.value.timeUnallocated == None
  {
    LookupReconciled(s, e, r);
  }

  lemma LeftIff(s: seq<Allocation>, e: Env, r: Requester)
    requires Inv(s) && Lookup(s, r).Some? && Held(Lookup(s, r).value)
    ensures Lookup(Reconciled(s, e), r) == Lookup(s, r) <==> Leaves(e, Lookup(s, r).value, r)
  {
    if Lookup(s, r).value.status.Cooldown? {
      CoolingSurvivesIff(s, e, r);
    } else {
      InUseBecomes(s, e, r);
    }
  }

  /** r's allocation is the same at the end of the run and at every earlier moment. */
  ghost predicate StaysThroughout(s: seq<Allocation>, envs: seq<Env>, r: Requester) {
    && Lookup(Run(s, envs), r) == Lookup(s, r)
    && (envs != [] ==> StaysThroughout(s, envs[..|envs| - 1], r))
  }

  lemma OneMoreLeft(s: seq<Allocation>, envs: seq<Env>, r: Requester)
    requires Inv(s) && Lookup(s, r).Some? && Held(Lookup(s, r).value) && envs != []
    requires Lookup(Run(s, envs[..|envs| - 1]), r) == Lookup(s, r)
    ensures Lookup(Run(s, envs), r) == Lookup(s, r) <==> Leaves(envs[|envs| - 1], Lookup(s, r).value, r)
  {
    RunKeepsInv(s, envs[..|envs| - 1]);
    LeftIff(Run(s, envs[..|envs| - 1]), envs[|envs| - 1], r);
  }

  lemma {:induction false} StaysIffLeft(s: seq<Allocation>, envs: seq<Env>, r: Requester)
    requires Inv(s) && Lookup(s, r).Some? && Held(Lookup(s, r).value)
    ensures StaysThroughout(s, envs, r) <==> forall i :: 0 <= i < |envs| ==> Leaves(envs[i], Lookup(s, r).value, r)
  {
    if envs != [] {
      var m := |envs| - 1;
      StaysIffLeft(s, envs[..m], r);
      assert forall i :: 0 <= i < m ==> envs[..m][i] == envs[i];
      if StaysThroughout(s, envs[..m], r) {
        OneMoreLeft(s, envs, r);
      }
    }
  }

  /** Over whole runs: an allocation with ports stays throughout exactly if every single reconcile leaves it, and then
      nobody else has any of its ports. */
  lemma StaysThroughoutIff(s: seq<Allocation>, envs: seq<Env>, r: Requester)
    requires Inv(s) && Lookup(s, r).Some? && Held(Lookup(s, r).value)
    ensures StaysThroughout(s, envs, r) <==> forall i :: 0 <= i < |envs| ==> Leaves(envs[i], Lookup(s, r).value, r)
    ensures StaysThroughout(s, envs, r) ==> NobodyElseHas(Run(s, envs), Lookup(s, r).value.ports, r)
  {
    StaysIffLeft(s, envs, r);
    if StaysThroughout(s, envs, r) {
      RunKeepsInv(s, envs);
      NotShared(Run(s, envs), r);
    }
  }

  ghost predicate NobodyElseHas(s: seq<Allocation>, ports: seq<uint16>, r: Requester) {
    forall q, p :: q != r && Lookup(s, q).Some? && p in ports ==> p !in Lookup(s, q).value.ports
  }

  lemma NotShared(s: seq<Allocation>, r: Requester)
    requires Inv(s) && Lookup(s, r).Some?
    ensures NobodyElseHas(s, Lookup(s, r).value.ports, r)
  {
    forall q, p | q != r && Lookup(s, q).Some? && p in Lookup(s, r).value.ports ensures p !in Lookup(s, q).value.ports {
      assert Apart(s[FindIndex(s, r).value], s[FindIndex(s, q).value]);
    }
  }

  /** There is no cooldown, and nobody asks: the reconcile drops whatever r has. */
  predicate Drops(e: Env, r: Requester) {
    Unasked(e, r) && CooldownOf(e.config) == 0
  }

  /** An allocation in use that carries an old release time outlasts every reconcile, whoever asks for it or not, except
      one that finds it unasked for and no cooldown, because the configuration sets zero or is missing. Until then its
      ports are out of everyone's reach. */
  lemma StaleReleaseTimeLeaksPorts(s: seq<Allocation>, envs: seq<Env>, r: Requester)
    requires Inv(s)
    requires Lookup(s, r).Some? && Lookup(s, r).value.status.InUse? && Lookup(s, r).value.timeUnallocated.Some?
    ensures StaysThroughout(s, envs, r) <==> forall i :: 0 <= i < |envs| ==> !Drops(envs[i], r)
    ensures StaysThroughout(s, envs, r) ==>
      && Lookup(Run(s, envs), r) == Lookup(s, r)
      && NobodyElseHas(Run(s, envs), Lookup(s, r).value.ports, r)
  {
    StaysThroughoutIff(s, envs, r);
    assert forall i :: 0 <= i < |envs| ==> (Leaves(envs[i], Lookup(s, r).value, r) <==> !Drops(envs[i], r));
  }

  ghost predicate NobodyAsks(envs: seq<Env>, r: Requester) {
    forall i :: 0 <= i < |envs| ==> !Wanted(envs[i].spec, r)
  }

  /** Once cooling, and as long as nobody asks, an allocation goes on cooling since the same time or is gone. */
  lemma {:induction false} CoolingOrGone(s: seq<Allocation>, envs: seq<Env>, r: Requester)
    requires Inv(s) && NobodyAsks(envs, r)
    requires Lookup(s, r).Some? ==> Lookup(s, r).value.status.Cooldown?
    ensures Lookup(Run(s, envs), r) == None || Lookup(Run(s, envs), r) == Lookup(s, r)
  {
    if envs != [] {
      var front, e := envs[..|envs| - 1], envs[|envs| - 1];
      CoolingOrGone(s, front, r);
      RunKeepsInv(s, front);
      if !e.config.ReadError? {
        LookupReconciled(Run(s, front), e, r);
      }
    }
  }

  /** Withdrawn at e1, and looked at again at e2, a full cooldown later, with any reconciles at all in between during
      which nobody asks: the ports are free exactly if they had never been through a cooldown before, or some reconcile
      in between found no cooldown. */
  lemma FreedIffNeverReleased(s: seq<Allocation>, e1: Env, mid: seq<Env>, e2: Env, r: Requester)
    requires Inv(s) && Lookup(s, r).Some? && Lookup(s, r).value.status.InUse?
    requires !Wanted(e1.spec, r) && NobodyAsks(mid, r) && !Wanted(e2.spec, r)
    requires e1.config.Found? && e1.config.cooldown != 0 && e2.config.Found? && e2.config.cooldown != 0
    requires e2.now - e1.now >= e2.config.cooldown * 1_000_000_000
    ensures Lookup(Run(s, [e1] + mid + [e2]), r) == None <==>
      Lookup(s, r).value.timeUnallocated.None? || SomeDrops(mid, r)
  {
    var first := Reconciled(s, e1);
    var before := Run(first, mid);
    RunAround(s, e1, mid, e2);
    ReconcileKeepsInv(s, e1);
    RunKeepsInv(first, mid);
    InUseBecomes(s, e1, r);
    LookupReconciled(before, e2, r);
    if Lookup(s, r).value.timeUnallocated.None? {
      CoolingOrGone(first, mid, r);
    } else {
      StaleEnds(first, mid, r);
    }
  }

  lemma RunAround(s: seq<Allocation>, e1: Env, mid: seq<Env>, e2: Env)
    ensures Run(s, [e1] + mid + [e2]) == Reconciled(Run(Reconciled(s, e1), mid), e2)
  {
    RunThen(s, [e1] + mid, [e2]);
    RunThen(s, [e1], mid);
    RunOne(s, e1);
    RunOne(Run(s, [e1] + mid), e2);
  }

  ghost predicate SomeDrops(envs: seq<Env>, r: Requester) {
    exists i :: 0 <= i < |envs| && Drops(envs[i], r)
  }

  lemma SomeDropsSnoc(envs: seq<Env>, r: Requester)
    requires envs != []
    ensures SomeDrops(envs, r) <==> SomeDrops(envs[..|envs| - 1], r) || Drops(envs[|envs| - 1], r)
  {
    var front := envs[..|envs| - 1];
    assert forall i :: 0 <= i < |front| ==> front[i] == envs[i];
    if SomeDrops(front, r) {
      var i :| 0 <= i < |front| && Drops(front[i], r);
      assert Drops(envs[i], r);
    }
  }

  lemma StaleStep(s: seq<Allocation>, e: Env, r: Requester)
    requires Inv(s) && !Wanted(e.spec, r)
    requires Lookup(s, r).Some? ==> Lookup(s, r).value.status.InUse? && Lookup(s, r).value.timeUnallocated.Some?
    ensures Lookup(Reconciled(s, e), r) == if Drops(e, r) then None else Lookup(s, r)
  {
    if !e.config.ReadError? {
      LookupReconciled(s, e, r);
    }
  }

  /** r asks all the time, and the configuration is never missing. */
  ghost predicate AsksAllAlong(envs: seq<Env>, r: Requester) {
    forall i :: 0 <= i < |envs| ==> Wanted(envs[i].spec, r) && !envs[i].config.NotFound?
  }

  /** Waiting does no harm: whoever asks from the start, for however long, is never stamped as released. */
  lemma {:induction false} WaitingIsNeverStamped(s: seq<Allocation>, envs: seq<Env>, r: Requester)
    requires Inv(s) && Lookup(s, r) == None && AsksAllAlong(envs, r)
    ensures Lookup(Run(s, envs), r).Some? ==>
      var a := Lookup(Run(s, envs), r).value;
      (a.status == InUse || a.status == InsufficientResources) && a.timeUnallocated == None
  {
    if envs != [] {
      var front, e := envs[..|envs| - 1], envs[|envs| - 1];
      WaitingIsNeverStamped(s, front, r);
      RunKeepsInv(s, front);
      OneMoreWait(Run(s, front), e, r);
    }
  }

  lemma OneMoreWait(s: seq<Allocation>, e: Env, r: Requester)
    requires Inv(s) && Wanted(e.spec, r) && !e.config.NotFound?
    requires Lookup(s, r).Some? ==>
      var a := Lookup(s, r).value;
      (a.status == InUse || a.status == InsufficientResources) && a.timeUnallocated == None
    ensures Lookup(Reconciled(s, e), r).Some? ==>
      var a := Lookup(Reconciled(s, e), r).value;
      (a.status == InUse || a.status == InsufficientResources) && a.timeUnallocated == None
  {
    if Lookup(s, r) == None {
      if !e.config.ReadError? {
        NewcomerBecomes(s, e, r);
      }
    } else if Lookup(s, r).value.status == InUse {
      InUseBecomes(s, e, r);
    } else {
      WaitingBecomes(s, e, r);
    }
  }

  /** So a requester that waited for as long as it may be, was served and withdraws, frees its ports after a
      cooldown. */
  lemma WaitedServedAndFreed(s: seq<Allocation>, wait: seq<Env>, e1: Env, mid: seq<Env>, e2: Env, r: Requester)
    requires Inv(s) && Lookup(s, r) == None && AsksAllAlong(wait, r)
    requires Lookup(Run(s, wait), r).Some? && Lookup(Run(s, wait), r).value.status == InUse
    requires !Wanted(e1.spec, r) && NobodyAsks(mid, r) && !Wanted(e2.spec, r)
    requires HasCooldown(e1) && HasCooldown(e2) && e2.now - e1.now >= e2.config.cooldown * 1_000_000_000
    ensures Lookup(Run(s, wait + ([e1] + mid + [e2])), r) == None
  {
    WaitingIsNeverStamped(s, wait, r);
    RunKeepsInv(s, wait);
    FreedIffNeverReleased(Run(s, wait), e1, mid, e2, r);
    RunThen(s, wait, [e1] + mid + [e2]);
  }

  /** While nobody asks, a stale allocation in use is there unless some reconcile found no cooldown. */
  lemma {:induction false} StaleEnds(s: seq<Allocation>, envs: seq<Env>, r: Requester)
    requires Inv(s) && NobodyAsks(envs, r)
    requires Lookup(s, r).Some? && Lookup(s, r).value.status.InUse? && Lookup(s, r).value.timeUnallocated.Some?
    ensures Lookup(Run(s, envs), r) == if SomeDrops(envs, r) then None else Lookup(s, r)
  {
    if envs != [] {
      var front, e := envs[..|envs| - 1], envs[|envs| - 1];
      StaleEnds(s, front, r);
      RunKeepsInv(s, front);
      StaleStep(Run(s, front), e, r);
      SomeDropsSnoc(envs, r);
    }
  }

  // ---------- Requeueing ----------

  /** The documented rule for requests: entries are unique. */
  ghost predicate UniqueRequests(spec: seq<Request>) {
    forall i, j :: 0 <= i < j < |spec| ==> spec[i].requester != spec[j].requester
  }

  predicate Served(s: seq<Allocation>, spec: seq<Request>, i: nat)
    requires i < |spec|
  {
    InUseNow(Lookup(s, spec[i].requester))
  }

  predicate ServedFirst(s: seq<Allocation>, spec: seq<Request>, n: nat)
    requires n <= |spec|
  {
    forall i :: 0 <= i < n ==> Served(s, spec, i)
  }

  predicate AllServed(s: seq<Allocation>, spec: seq<Request>) {
    ServedFirst(s, spec, |spec|)
  }

  lemma ServedStep(mid: seq<Allocation>, spec: seq<Request>, n: nat, config: ConfigRead, one: Allocated)
    requires Inv(mid) && UniqueRequests(spec) && n < |spec| && one == AllocateOne(mid, spec[n], config)
    ensures ServedFirst(one.allocations, spec, n + 1) <==> ServedFirst(mid, spec, n) && one.unsatisfied == 0
  {
    AllocateOneShape(mid, spec[n], config);
    LookupAllocated(mid, spec[n], config, spec[n].requester);
    forall i | 0 <= i < n
      ensures Served(one.allocations, spec, i) == Served(mid, spec, i)
    {
      LookupAllocated(mid, spec[n], config, spec[i].requester);
    }
    assert Served(one.allocations, spec, n) <==> one.unsatisfied == 0;
  }

  /** One turn more of the loop, as far as serving goes. */
  lemma ServeOne(before: Allocated, spec: seq<Request>, n: nat, config: ConfigRead) returns (one: Allocated)
    requires Inv(before.allocations) && UniqueRequests(spec) && n < |spec|
    ensures one == AllocateOne(before.allocations, spec[n], config) && Inv(one.allocations)
    ensures ServedFirst(one.allocations, spec, n + 1) <==>
      ServedFirst(before.allocations, spec, n) && one.unsatisfied == 0
  {
    one := AllocateOne(before.allocations, spec[n], config);
    AllocateOneKeepsInv(before.allocations, spec[n], config);
    ServedStep(before.allocations, spec, n, config, one);
  }

  lemma AllocateMore(
    s: seq<Allocation>, spec: seq<Request>, n: nat, config: ConfigRead, before: Allocated, one: Allocated)
    requires 0 < n <= |spec| && before == AllocateFirst(s, spec, n - 1, config)
    requires one == AllocateOne(before.allocations, spec[n - 1], config)
    ensures AllocateFirst(s, spec, n, config) == Allocated(one.allocations, before.unsatisfied + one.unsatisfied)
  {}

  lemma {:induction false} UnsatisfiedIffUnserved(
    s: seq<Allocation>, spec: seq<Request>, n: nat, config: ConfigRead) returns (done: Allocated)
    requires Inv(s) && UniqueRequests(spec) && n <= |spec|
    ensures done == AllocateFirst(s, spec, n, config) && Inv(done.allocations)
    ensures done.unsatisfied == 0 <==> ServedFirst(done.allocations, spec, n)
  {
    if n == 0 {
      done := Allocated(s, 0);
    } else {
      var before := UnsatisfiedIffUnserved(s, spec, n - 1, config);
      var one := ServeOne(before, spec, n - 1, config);
      AllocateMore(s, spec, n, config, before, one);
      done := Allocated(one.allocations, before.unsatisfied + one.unsatisfied);
    }
  }

  /** The reconcile asks to be run again after a delay exactly if some request is left without ports. */
  lemma RequeuesIffSomeRequestIsUnserved(s: seq<Allocation>, e: Env)
    requires Inv(s) && UniqueRequests(e.spec) && !e.config.ReadError?
    ensures OutcomeOf(s, e).RequeueAfter? <==> !AllServed(Reconciled(s, e), e.spec)
  {
    CleanFirstKeepsInv(e.spec, CooldownOf(e.config), e.now, s, |s|);
    var done := UnsatisfiedIffUnserved(Cleaned(s, e), e.spec, |e.spec|, e.config);
  }

  /** What a reconcile asks for in the end: nothing can be said if reading the configuration failed; unserved requests
      are looked at again one second after a cooldown; a missing configuration is looked for again at once. */
  lemma OutcomeMeans(s: seq<Allocation>, e: Env)
    requires Inv(s) && UniqueRequests(e.spec)
    ensures OutcomeOf(s, e) ==
      match e.config
      case ReadError => Failed
      case NotFound => if AllServed(Reconciled(s, e), e.spec) then Requeue else RequeueAfter(1)
      case Found(_, cooldown) => if AllServed(Reconciled(s, e), e.spec) then Done else RequeueAfter(cooldown + 1)
  {
    if !e.config.ReadError? {
      RequeuesIffSomeRequestIsUnserved(s, e);
    }
  }

  // ---------- Who is served, and with what ----------

  /** The list as the loop finds it when it comes to request i. */
  function AtTurn(s: seq<Allocation>, e: Env, i: nat): seq<Allocation>
    requires i <= |e.spec|
  {
    AllocateFirst(Cleaned(s, e), e.spec, i, e.config).allocations
  }

  lemma {:induction false} LaterRequestsLeaveIt(s: seq<Allocation>, e: Env, i: nat, n: nat)
    requires Inv(s) && UniqueRequests(e.spec) && i < n <= |e.spec|
    ensures Lookup(AtTurn(s, e, n), e.spec[i].requester) == Lookup(AtTurn(s, e, i + 1), e.spec[i].requester)
  {
    if n > i + 1 {
      LaterRequestsLeaveIt(s, e, i, n - 1);
      CleanFirstKeepsInv(e.spec, CooldownOf(e.config), e.now, s, |s|);
      AllocateFirstKeepsInv(Cleaned(s, e), e.spec, n - 1, e.config);
      RequestSeenBy(AtTurn(s, e, n - 1), e.spec[n - 1], e.config, e.spec[i].requester);
    }
  }

  lemma BeforeItsTurn(s: seq<Allocation>, e: Env, i: nat)
    requires Inv(s) && UniqueRequests(e.spec) && i < |e.spec|
    ensures Inv(AtTurn(s, e, i))
    ensures Lookup(AtTurn(s, e, i), e.spec[i].requester) == AfterCleanup(s, e, e.spec[i].requester)
  {
    var r := e.spec[i].requester;
    CleanFirstKeepsInv(e.spec, CooldownOf(e.config), e.now, s, |s|);
    AllocateFirstKeepsInv(Cleaned(s, e), e.spec, i, e.config);
    LookupCleaned(e.spec, CooldownOf(e.config), e.now, s, |s|, r);
    LookupAllocateFirst(Cleaned(s, e), e.spec, i, e.config, r, AllocateFirst(Cleaned(s, e), e.spec, i, e.config));
  }

  /** With unique requests and a configuration, a request that holds no ports yet gets the first `count` enumerated
      ports that nobody holds at its turn, and none at all exactly if there are fewer than that. */
  lemma ServedIffEnoughUnheld(s: seq<Allocation>, e: Env, i: nat)
    requires Inv(s) && UniqueRequests(e.spec) && i < |e.spec| && e.config.Found?
    requires !InUseNow(AfterCleanup(s, e, e.spec[i].requester))
    ensures var free := Unused(Enumerated(e.config.ports), HeldPorts(AtTurn(s, e, i)));
      var after := Lookup(Reconciled(s, e), e.spec[i].requester);
      && after.Some?
      && (after.value.status.InsufficientResources? <==> |free| < e.spec[i].count)
      && (after.value.status.InUse? <==> |free| >= e.spec[i].count)
      && after.value.ports == if |free| >= e.spec[i].count then free[..e.spec[i].count] else []
  {
    var mid := AtTurn(s, e, i);
    BeforeItsTurn(s, e, i);
    LookupAllocated(mid, e.spec[i], e.config, e.spec[i].requester);
    ClaimOf(mid, Enumerated(e.config.ports), e.spec[i].count);
    LaterRequestsLeaveIt(s, e, i, |e.spec|);
  }

  // ---------- Distinct ports within one grant ----------

  lemma {:induction false} UnusedKeepsDistinct(all: seq<uint16>, used: seq<uint16>)
    requires Distinct(all)
    ensures Distinct(Unused(all, used))
  {
    if all != [] {
      var p, rest := all[0], all[1..];
      assert all == [p] + rest;
      DistinctCons(p, rest);
      UnusedKeepsDistinct(rest, used);
      InUnused(rest, used, p);
      DistinctCons(p, Unused(rest, used));
    }
  }

  lemma {:induction false} NothingUsed(all: seq<uint16>)
    ensures Unused(all, []) == all
  {
    if all != [] {
      NothingUsed(all[1..]);
    }
  }

  /** Every grant consists of different ports exactly if no two of the entries the iterator reaches overlap. */
  lemma GrantsAreDistinctIffNoOverlap(ports: seq<IntOrString>)
    requires Validated(ports)
    ensures (forall s, count: nat :: Inv(s) ==> Distinct(FindFree(s, Enumerated(ports), count).ports)) <==>
      NoOverlap(DeclaredAll(Usable(ports)))
  {
    var all := Enumerated(ports);
    DistinctIffNoOverlap(ports);
    if Distinct(all) {
      forall s, count: nat | Inv(s) ensures Distinct(FindFree(s, all, count).ports) {
        UnusedKeepsDistinct(all, HeldPorts(s));
        ClaimOf(s, all, count);
      }
    } else {
      NothingUsed(all);
      ClaimOf([], all, |all|);
      assert all[..|all|] == all;
      assert FindFree([], all, |all|).ports == all;
    }
  }

  /** A validated port that sits in or behind a signed range, and in no entry before it, is never granted. */
  lemma PortsBehindASignAreNeverGranted(ports: seq<IntOrString>, s: seq<Allocation>, count: nat, port: uint16)
    requires Validated(ports) && Inv(s) && !CoveredBy(Usable(ports), port)
    ensures port !in FindFree(s, Enumerated(ports), count).ports
  {
    EnumeratesExactlyTheCoveredPorts(ports, port);
    ClaimOf(s, Enumerated(ports), count);
  }

  // ---------- Concrete runs ----------

  lemma RunOne(s: seq<Allocation>, e: Env)
    ensures Run(s, [e]) == Reconciled(s, e)
  {
    assert [e][..0] == [];
  }

  lemma {:induction false} RunThen(s: seq<Allocation>, first: seq<Env>, then_: seq<Env>)
    ensures Run(s, first + then_) == Run(Run(s, first), then_)
  {
    if then_ == [] {
      assert first + then_ == first;
    } else {
      var n := |then_| - 1;
      RunThen(s, first, then_[..n]);
      assert (first + then_)[..|first + then_| - 1] == first + then_[..n];
    }
  }

  lemma OneRequest(s: seq<Allocation>, request: Request, config: ConfigRead)
    ensures AllocateAll(s, [request], config) == AllocateOne(s, request, config)
  {
    assert AllocateFirst(s, [request], 0, config) == Allocated(s, 0);
  }

  /** Reads the system configuration: the listed ports and a cooldown. */
  function Listing(ports: seq<uint16>, cooldown: int): ConfigRead {
    Found(seq(|ports|, i requires 0 <= i < |ports| => Int(ports[i])), cooldown)
  }

  lemma {:induction false} ListingFrom(ports: seq<uint16>, index: nat)
    requires index <= |ports| && INVALID_PORT !in ports
    ensures Remaining(SeenAll(Listing(ports, 0).ports), index, 0) == ports[index..]
    decreases |ports| - index
  {
    if index < |ports| {
      ListingFrom(ports, index + 1);
      assert ports[index..] == [ports[index]] + ports[index + 1..];
    }
  }

  lemma ListingIsEnumerated(ports: seq<uint16>, cooldown: int)
    requires INVALID_PORT !in ports
    ensures Enumerated(Listing(ports, cooldown).ports) == ports
  {
    ListingFrom(ports, 0);
  }

  lemma HeldByOne(a: Allocation)
    ensures HeldPorts([a]) == if Held(a) then a.ports else []
  {
    assert HeldFirst([a], 0) == [];
  }

  lemma CleanOfOne(spec: seq<Request>, cooldown: int, now: int, a: Allocation)
    ensures Clean(spec, cooldown, now, [a]) == ToSeq(CleanOne(spec, cooldown, now, a))
  {
    assert CleanFirst(spec, cooldown, now, [a], 0) == [];
  }

  lemma LookupInOne(a: Allocation, r: Requester)
    requires a.requester == Some(r)
    ensures FindIndex([a], r) == Some(0) && Lookup([a], r) == Some(a)
  {}

  /** The first reconcile, with the system configuration missing, turns the request down. */
  lemma RefusedWithoutConfiguration(r: Requester, t: int)
    ensures Reconciled([], Env([Request(r, 1)], NotFound, t)) == [Allocation(Some(r), [], InvalidConfiguration, None)]
  {
    OneRequest([], Request(r, 1), NotFound);
  }

  /** A lone allocation that is not in use takes whatever ports are claimed for it, and keeps its release time. */
  lemma RegrantOne(a: Allocation, request: Request, ports: seq<IntOrString>, cooldown: int, claimed: seq<uint16>)
    requires a.requester == Some(request.requester) && !a.status.InUse?
    requires FindFree([a], Enumerated(ports), request.count) == Claim(claimed, InUse, [a])
    ensures AllocateOne([a], request, Found(ports, cooldown)).allocations
         == [Allocation(a.requester, claimed, InUse, a.timeUnallocated)]
  {
    LookupInOne(a, request.requester);
  }

  lemma OnlyPort(a: Allocation, p: uint16, cooldown: int)
    requires a.ports == [] && p != INVALID_PORT
    ensures FindFree([a], Enumerated(Listing([p], cooldown).ports), 1) == Claim([p], InUse, [a])
  {
    ListingIsEnumerated([p], cooldown);
    HeldByOne(a);
    NothingUsed([p]);
  }

  /** The second one puts the refusal into a cooldown and, in the same pass, grants the port on top of it. */
  lemma GrantedOnTopOfCooldown(r: Requester, p: uint16, cooldown: int, now: int)
    requires p != INVALID_PORT && cooldown != 0
    ensures Reconciled([Allocation(Some(r), [], InvalidConfiguration, None)],
                       Env([Request(r, 1)], Listing([p], cooldown), now))
         == [Allocation(Some(r), [p], InUse, Some(now))]
  {
    var refused := Allocation(Some(r), [], InvalidConfiguration, None);
    var cooling := Allocation(Some(r), [], Cooldown, Some(now));
    var config := Listing([p], cooldown);
    CleanOfOne([Request(r, 1)], cooldown, now, refused);
    OnlyPort(cooling, p, cooldown);
    RegrantOne(cooling, Request(r, 1), config.ports, cooldown, [p]);
    OneRequest([cooling], Request(r, 1), config);
  }

  lemma LeakReached(r: Requester, p: uint16, cooldown: int, t: int, now: int)
    requires p != INVALID_PORT && cooldown != 0
    ensures Run([], [Env([Request(r, 1)], NotFound, t), Env([Request(r, 1)], Listing([p], cooldown), now)])
         == [Allocation(Some(r), [p], InUse, Some(now))]
  {
    var e1, e2 := Env([Request(r, 1)], NotFound, t), Env([Request(r, 1)], Listing([p], cooldown), now);
    RefusedWithoutConfiguration(r, t);
    GrantedOnTopOfCooldown(r, p, cooldown, now);
    RunOne([], e1);
    RunOne(Run([], [e1]), e2);
    RunThen([], [e1], [e2]);
    assert [e1] + [e2] == [e1, e2];
  }

  /** A request made while the configuration is missing, served once it appears and then withdrawn, loses its port. */
  lemma PortLostAfterMissingConfiguration(r: Requester, p: uint16, cooldown: int, t: int, now: int, later: seq<Env>)
    requires p != INVALID_PORT && cooldown != 0 && forall i :: 0 <= i < |later| ==> !Drops(later[i], r)
    ensures var start := [Env([Request(r, 1)], NotFound, t), Env([Request(r, 1)], Listing([p], cooldown), now)];
      Lookup(Run([], start + later), r) == Some(Allocation(Some(r), [p], InUse, Some(now)))
  {
    var e1, e2 := Env([Request(r, 1)], NotFound, t), Env([Request(r, 1)], Listing([p], cooldown), now);
    var leaked := Allocation(Some(r), [p], InUse, Some(now));
    LeakReached(r, p, cooldown, t, now);
    RunThen([], [e1, e2], later);
    LookupInOne(leaked, r);
    StaleReleaseTimeLeaksPorts([leaked], later, r);
  }

  /** Two ports, one of them held by the only allocation: a request for one port gets the other. */
  lemma OtherPort(a: Allocation, p: uint16, q: uint16, cooldown: int)
    requires Held(a) && p != q && INVALID_PORT !in [p, q]
    ensures a.ports == [p] ==> FindFree([a], Enumerated(Listing([p, q], cooldown).ports), 1) == Claim([q], InUse, [a])
    ensures a.ports == [q] ==> FindFree([a], Enumerated(Listing([p, q], cooldown).ports), 1) == Claim([p], InUse, [a])
  {
    ListingIsEnumerated([p, q], cooldown);
    HeldByOne(a);
    assert [p, q] == [p] + [q] && [q] == [q] + [];
    UnusedCons(p, [q], a.ports);
    UnusedCons(q, [], a.ports);
  }

  lemma GrantedToTheFirst(r: Requester, all: seq<uint16>, cooldown: int, t: int)
    requires all != [] && INVALID_PORT !in all
    ensures Reconciled([], Env([Request(r, 1)], Listing(all, cooldown), t))
         == [Allocation(Some(r), [all[0]], InUse, None)]
  {
    ListingIsEnumerated(all, cooldown);
    NothingUsed(all);
    assert FindFree([], all, 1) == Claim([all[0]], InUse, []);
    OneRequest([], Request(r, 1), Listing(all, cooldown));
  }

  lemma Withdrawn(a: Allocation, all: seq<uint16>, cooldown: int, t: int)
    requires a.status.InUse? && a.timeUnallocated.None? && cooldown != 0
    ensures Reconciled([a], Env([], Listing(all, cooldown), t)) == [a.(status := Cooldown, timeUnallocated := Some(t))]
  {
    CleanOfOne([], cooldown, t, a);
  }

  /** Granted the first listed port at one time, withdrawn at another: from then on it is cooling. */
  function GrantAndWithdraw(r: Requester, all: seq<uint16>, cooldown: int, t: int, released: int): seq<Env> {
    [Env([Request(r, 1)], Listing(all, cooldown), t), Env([], Listing(all, cooldown), released)]
  }

  lemma CoolingReached(r: Requester, all: seq<uint16>, cooldown: int, t: int, released: int)
    requires all != [] && INVALID_PORT !in all && cooldown != 0
    ensures Run([], GrantAndWithdraw(r, all, cooldown, t, released))
         == [Allocation(Some(r), [all[0]], Cooldown, Some(released))]
  {
    var e1, e2 := Env([Request(r, 1)], Listing(all, cooldown), t), Env([], Listing(all, cooldown), released);
    GrantedToTheFirst(r, all, cooldown, t);
    Withdrawn(Allocation(Some(r), [all[0]], InUse, None), all, cooldown, released);
    RunOne([], e1);
    RunOne(Run([], [e1]), e2);
    RunThen([], [e1], [e2]);
    assert [e1] + [e2] == [e1, e2];
  }

  lemma TwoRequests(s: seq<Allocation>, one: Request, two: Request, config: ConfigRead)
    ensures AllocateAll(s, [one, two], config).allocations
         == AllocateOne(AllocateOne(s, one, config).allocations, two, config).allocations
  {
    var spec := [one, two];
    assert AllocateFirst(s, spec, 0, config) == Allocated(s, 0);
    assert AllocateFirst(s, spec, 1, config).allocations == AllocateOne(s, one, config).allocations;
  }

  /** A newcomer next to a lone allocation takes what is claimed for it. */
  lemma GrantSecond(a: Allocation, request: Request, ports: seq<IntOrString>, cooldown: int, claimed: seq<uint16>)
    requires a.requester.Some? && a.requester.value != request.requester
    requires FindFree([a], Enumerated(ports), request.count) == Claim(claimed, InUse, [a])
    ensures AllocateOne([a], request, Found(ports, cooldown)).allocations
         == [a, Allocation(Some(request.requester), claimed, InUse, None)]
  {}

  lemma LookupInTwo(a: Allocation, b: Allocation, r: Requester)
    requires a.requester != Some(r) && b.requester == Some(r)
    ensures Lookup([a, b], r) == Some(b)
  {
    assert FindFrom([a, b], r, 1) == Some(1);
  }

  lemma ReaskedWhileCooling(
    first: Requester, second: Requester, p: uint16, q: uint16, cooldown: int, released: int, now: int)
    requires first != second && p != q && INVALID_PORT !in [p, q]
    requires cooldown != 0 && now - released < cooldown * 1_000_000_000
    ensures var cooling := Allocation(Some(first), [p], Cooldown, Some(released));
      var e := Env([Request(first, 1), Request(second, 1)], Listing([p, q], cooldown), now);
      Reconciled([cooling], e)
        == [Allocation(Some(first), [q], InUse, Some(released)), Allocation(Some(second), [p], InUse, None)]
  {
    var cooling := Allocation(Some(first), [p], Cooldown, Some(released));
    var again := Allocation(Some(first), [q], InUse, Some(released));
    var one, two := Request(first, 1), Request(second, 1);
    var config := Listing([p, q], cooldown);
    CleanOfOne([one, two], cooldown, now, cooling);
    OtherPort(cooling, p, q, cooldown);
    RegrantOne(cooling, one, config.ports, cooldown, [q]);
    OtherPort(again, p, q, cooldown);
    GrantSecond(again, two, config.ports, cooldown, [p]);
    TwoRequests([cooling], one, two, config);
  }

  /** Ports that are still cooling go to somebody else as soon as their last user asks again under the same name. */
  lemma CooldownCutShort(
    first: Requester, second: Requester, p: uint16, q: uint16, cooldown: int, t: int, released: int, now: int)
    requires first != second && p != q && INVALID_PORT !in [p, q]
    requires cooldown != 0 && now - released < cooldown * 1_000_000_000
    ensures var e := Env([Request(first, 1), Request(second, 1)], Listing([p, q], cooldown), now);
      Lookup(Run([], GrantAndWithdraw(first, [p, q], cooldown, t, released) + [e]), second)
        == Some(Allocation(Some(second), [p], InUse, None))
  {
    var e := Env([Request(first, 1), Request(second, 1)], Listing([p, q], cooldown), now);
    CoolingReached(first, [p, q], cooldown, t, released);
    ReaskedWhileCooling(first, second, p, q, cooldown, released, now);
    LookupInTwo(
      Allocation(Some(first), [q], InUse, Some(released)), Allocation(Some(second), [p], InUse, None), second);
    var start := GrantAndWithdraw(first, [p, q], cooldown, t, released);
    RunThen([], start, [e]);
    RunOne(Run([], start), e);
  }

  /** And as soon as the system configuration cannot be found once: the next requester gets the port that was
      cooling. */
  lemma CooldownLostWithTheConfiguration(
    first: Requester, second: Requester, p: uint16, cooldown: int, t: int, released: int, now: int)
    requires p != INVALID_PORT && cooldown != 0 && now - released < cooldown * 1_000_000_000
    ensures var start := GrantAndWithdraw(first, [p], cooldown, t, released);
      && Run([], start) == [Allocation(Some(first), [p], Cooldown, Some(released))]
      && Run([], start + [Env([], NotFound, now), Env([Request(second, 1)], Listing([p], cooldown), now)])
           == [Allocation(Some(second), [p], InUse, None)]
  {
    var start := GrantAndWithdraw(first, [p], cooldown, t, released);
    var e3, e4 := Env([], NotFound, now), Env([Request(second, 1)], Listing([p], cooldown), now);
    var cooling := Allocation(Some(first), [p], Cooldown, Some(released));
    CoolingReached(first, [p], cooldown, t, released);
    CleanOfOne([], 0, now, cooling);
    assert Reconciled([cooling], e3) == [];
    GrantedToTheFirst(second, [p], cooldown, now);
    RunOne([cooling], e3);
    RunOne([], e4);
    RunThen([cooling], [e3], [e4]);
    assert [e3] + [e4] == [e3, e4];
    RunThen([], start, [e3, e4]);
  }
}
