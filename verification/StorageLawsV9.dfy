/** What the v1alpha9 conversions of a storage profile promise. */
module StorageLawsV9 {
  import opened GoValues
  import opened StorageConversionV9
  import opened StorageShapes
  import opened StorageNames
  import V9 = StorageV9
  import V11 = StorageV11

  // ---------- The carried and the restored fields split the hub record ----------

  lemma DownAfterJoin(s: V9.ProfileData, o: HubOnly)
    ensures Down(Join(s, o)) == s && Only(Join(s, o)) == o
  {
    assert DownLustre(JoinLustre(s.lustreStorage, o.lustre)) == s.lustreStorage;
    assert OnlyLustre(JoinLustre(s.lustreStorage, o.lustre)) == o.lustre;
    assert DownShared(JoinShared(s.gfs2Storage, o.gfs2)) == s.gfs2Storage;
    assert DownShared(JoinShared(s.xfsStorage, o.xfs)) == s.xfsStorage;
    assert DownShared(JoinShared(s.rawStorage, o.raw)) == s.rawStorage;
  }

  lemma JoinOfParts(h: V11.ProfileData)
    ensures Join(Down(h), Only(h)) == h
  {
    assert JoinLustre(DownLustre(h.lustreStorage), OnlyLustre(h.lustreStorage)) == h.lustreStorage;
    assert JoinShared(DownShared(h.gfs2Storage), OnlyShared(h.gfs2Storage)) == h.gfs2Storage;
    assert JoinShared(DownShared(h.xfsStorage), OnlyShared(h.xfsStorage)) == h.xfsStorage;
    assert JoinShared(DownShared(h.rawStorage), OnlyShared(h.rawStorage)) == h.rawStorage;
  }

  /** No hub field is carried by neither half: agreeing on both halves means being equal. */
  lemma PartsDetermineHub(h: V11.ProfileData, k: V11.ProfileData)
    requires Down(h) == Down(k) && Only(h) == Only(k)
    ensures h == k
  {
    JoinOfParts(h);
    JoinOfParts(k);
  }

  // ---------- Round trips ----------

  /** A collection among the restored fields that is empty without being nil. */
  predicate HasEmptyHubOnly(h: V11.ProfileData) {
    var l := h.lustreStorage;
    || l.mgtOptions.target.variableOverride.ExplicitlyEmpty()
    || l.mdtOptions.target.variableOverride.ExplicitlyEmpty()
    || l.mgtMdtOptions.target.variableOverride.ExplicitlyEmpty()
    || l.ostOptions.target.variableOverride.ExplicitlyEmpty()
    || l.clientOptions.variableOverride.ExplicitlyEmpty()
    || l.clientOptions.cmdLines.rabbitPostTeardown.ExplicitlyEmpty()
    || HasEmptyHubOnlyShared(h.gfs2Storage)
    || HasEmptyHubOnlyShared(h.xfsStorage)
    || HasEmptyHubOnlyShared(h.rawStorage)
  }

  predicate HasEmptyHubOnlyShared(d: V11.SharedData) {
    d.variableOverride.ExplicitlyEmpty() || d.userCommands.postTeardown.ExplicitlyEmpty()
  }

  lemma OnlyIsCanonicalIff(h: V11.ProfileData)
    ensures Only(V11.Canon(h)) == Only(h) <==> !HasEmptyHubOnly(h)
  {
    var l := h.lustreStorage;
    assert OnlyLustre(V11.CanonLustre(l)) == OnlyLustre(l) <==>
      && !l.mgtOptions.target.variableOverride.ExplicitlyEmpty()
      && !l.mdtOptions.target.variableOverride.ExplicitlyEmpty()
      && !l.mgtMdtOptions.target.variableOverride.ExplicitlyEmpty()
      && !l.ostOptions.target.variableOverride.ExplicitlyEmpty()
      && !l.clientOptions.variableOverride.ExplicitlyEmpty()
      && !l.clientOptions.cmdLines.rabbitPostTeardown.ExplicitlyEmpty();
    OnlySharedIsCanonicalIff(h.gfs2Storage);
    OnlySharedIsCanonicalIff(h.xfsStorage);
    OnlySharedIsCanonicalIff(h.rawStorage);
  }

  lemma OnlySharedIsCanonicalIff(d: V11.SharedData)
    ensures OnlyShared(V11.CanonShared(d)) == OnlyShared(d) <==> !HasEmptyHubOnlyShared(d)
  {}

  /** Hub to v1alpha9 and back, with the stash untouched: the same JSON and the same view, and the same value exactly
      if no restored collection is empty without being nil. */
  lemma HubRoundTrip(h: V11.ProfileData, dst: V11.ProfileData)
    ensures var back := Up(Down(h), Some(V11.Canon(h)), dst);
      && Down(back) == Down(h)
      && Only(back) == Only(V11.Canon(h))
      && V11.Canon(back) == V11.Canon(h)
      && (back == h <==> !HasEmptyHubOnly(h))
  {
    DownAfterJoin(Down(h), Only(V11.Canon(h)));
    JoinOfParts(h);
    CanonOfMixed(h);
    OnlyIsCanonicalIff(h);
  }

  /** A hub profile that does not come back as it was. */
  lemma EmptyListIsForgotten(dst: V11.ProfileData)
    ensures var h := V11.ZERO.(gfs2Storage := V11.ZERO_SHARED.(
        userCommands := V11.ZERO_SHARED.userCommands.(postTeardown := Elems([]))));
      && HasEmptyHubOnly(h)
      && Up(Down(h), Some(V11.Canon(h)), dst).gfs2Storage.userCommands.postTeardown == Nil
  {}

  /** Normalising the hub-only half first does not change what JSON makes of the whole. */
  lemma CanonOfMixed(h: V11.ProfileData)
    ensures V11.Canon(Join(Down(h), Only(V11.Canon(h)))) == V11.Canon(h)
  {
    var c, j := V11.Canon(h), Join(Down(h), Only(V11.Canon(h)));
    assert V11.CanonLustre(j.lustreStorage) == c.lustreStorage;
    assert V11.CanonShared(j.gfs2Storage) == c.gfs2Storage;
    assert V11.CanonShared(j.xfsStorage) == c.xfsStorage;
    assert V11.CanonShared(j.rawStorage) == c.rawStorage;
  }

  /** v1alpha9 to hub and back: the spoke's data survives any stash, missing, stale or unrelated. */
  lemma SpokeRoundTrip(s: V9.ProfileData, stash: Option<V11.ProfileData>, dst: V11.ProfileData)
    ensures Down(Up(s, stash, dst)) == s
  {
    DownAfterJoin(s, Only(Up(s, stash, dst)));
    var o :| Up(s, stash, dst) == Join(s, o);
    DownAfterJoin(s, o);
  }

  /** The combined target's capacity follows the edited MDT capacity exactly if the stash is gone or agrees already;
      the v1alpha9 documentation says the one field serves both. */
  lemma CombinedCapacityFollowsIff(s: V9.ProfileData, stash: Option<V11.ProfileData>, dst: V11.ProfileData)
    ensures Up(s, stash, dst).lustreStorage.mgtMdtOptions.capacity == s.lustreStorage.capacityMDT <==>
      stash.None? || stash.value.lustreStorage.mgtMdtOptions.capacity == s.lustreStorage.capacityMDT
  {}

  /** An edit of the MDT capacity through v1alpha9, with the stash kept, that leaves the combined target behind. */
  lemma CombinedCapacityCanLag()
    ensures var edited := Down(V11.ZERO).(lustreStorage := Down(V11.ZERO).lustreStorage.(capacityMDT := "5GiB"));
      Up(edited, Some(V11.Canon(V11.ZERO)), V11.ZERO).lustreStorage.mgtMdtOptions.capacity != "5GiB"
  {}

  // ---------- The nested conversions of the Lustre section ----------

  /** Whatever the nested conversions wrote, the object conversions' own passes write over it: running them first or
      not running them makes no difference to the result. */
  method CrossedMappingIsHarmless(src: V9.LustreData, out: V11.LustreData, down: V11.LustreData, was: V9.LustreData)
      returns (
        up: V11.LustreData, upWithoutNested: V11.LustreData, view: V9.LustreData, viewWithoutNested: V9.LustreData)
    ensures up == upWithoutNested == JoinLustre(src, OnlyLustre(out).(mgtMdtCapacity := src.capacityMDT))
    ensures view == viewWithoutNested == DownLustre(down)
  {
    var crossed := ConvertLustreTo11(src, out);
    NestedKeepsHubOnlyFields(src, out, down, was);
    up := AssignLustre(src, crossed);
    upWithoutNested := AssignLustre(src, out);
    var crossedView := ConvertLustreTo9(down, was);
    view := ReadLustre(down, crossedView);
    viewWithoutNested := ReadLustre(down, was);
  }

  /** The nested up-conversion keeps the fields v1alpha9 lacks, but for the combined capacity; the nested
      down-conversion is right about everything but the client commands. */
  lemma NestedKeepsHubOnlyFields(src: V9.LustreData, out: V11.LustreData, down: V11.LustreData, was: V9.LustreData)
    ensures OnlyLustre(NestedUp(src, out)) == OnlyLustre(out).(mgtMdtCapacity := src.capacityMDT)
    ensures NestedDown(down, was).(clientCmdLines := DownLustre(down).clientCmdLines) == DownLustre(down)
  {}

  /** The field the nested conversions read when they write this one. */
  function CrossedUp(leaf: ClientField): ClientField {
    match leaf
    case RabbitPostSetup => RabbitPostMount
    case RabbitPreTeardown => RabbitPreUnmount
    case _ => leaf
  }

  function CrossedDown(leaf: ClientField): ClientField {
    match leaf
    case RabbitPostMount => RabbitPostSetup
    case RabbitPreUnmount => RabbitPreTeardown
    case _ => leaf
  }

  const WRITTEN_UP: set<ClientField> := {MountRabbit, MountCompute, RabbitPostSetup, RabbitPreTeardown}
  const WRITTEN_DOWN: set<ClientField> := {MountRabbit, MountCompute, RabbitPostMount, RabbitPreUnmount}

  /** The client commands the nested up-conversion leaves. */
  lemma NestedUpClient(s: V9.LustreData, was: V11.LustreData)
    ensures var c := s.clientCmdLines;
      NestedUp(s, was).clientOptions.cmdLines == was.clientOptions.cmdLines.(
        mountRabbit := c.mountRabbit, mountCompute := c.mountCompute,
        rabbitPostSetup := c.rabbitPostMount, rabbitPreTeardown := c.rabbitPreUnmount)
  {}

  /** Taken alone, the nested pair maps two pairs of client commands across and leaves the others as they were. */
  lemma NestedPairCrosses(
      s: V9.LustreData, h: V11.LustreData, was11: V11.LustreData, was9: V9.LustreData, x: ClientField)
    ensures Client11(NestedUp(s, was11).clientOptions.cmdLines, x) ==
      if x in WRITTEN_UP then Client9(s.clientCmdLines, CrossedUp(x)).value
      else Client11(was11.clientOptions.cmdLines, x)
    ensures Client9(NestedDown(h, was9).clientCmdLines, x) ==
      if x in WRITTEN_DOWN then Some(Client11(h.clientOptions.cmdLines, CrossedDown(x)))
      else Client9(was9.clientCmdLines, x)
  {
    NestedUpCrosses(s, was11, x);
    NestedDownCrosses(h, was9, x);
  }

  lemma NestedUpCrosses(s: V9.LustreData, was11: V11.LustreData, x: ClientField)
    ensures Client11(NestedUp(s, was11).clientOptions.cmdLines, x) ==
      if x in WRITTEN_UP then Client9(s.clientCmdLines, CrossedUp(x)).value
      else Client11(was11.clientOptions.cmdLines, x)
  {
    NestedUpClient(s, was11);
  }

  lemma NestedDownCrosses(h: V11.LustreData, was9: V9.LustreData, x: ClientField)
    ensures Client9(NestedDown(h, was9).clientCmdLines, x) ==
      if x in WRITTEN_DOWN then Some(Client11(h.clientOptions.cmdLines, CrossedDown(x)))
      else Client9(was9.clientCmdLines, x)
  {}

  /** Everything but the client's fields the nested pair takes name for name; the combined capacity, which v1alpha9 does
      not name, is set from the MDT capacity. */
  lemma NestedByName(s: V9.LustreData, h: V11.LustreData, was11: V11.LustreData, was9: V9.LustreData, n: LustreName)
    requires n.OfLustre? || n.OfTarget?
    ensures ReadLustre11(NestedUp(s, was11), n) ==
      if ReadLustre9(s, n).Some? then ReadLustre9(s, n).value
      else if n == OfLustre(CapacityMGTMDT) then Text(s.capacityMDT)
      else ReadLustre11(was11, n)
    ensures ReadLustre9(NestedDown(h, was9), n).Some? ==>
      ReadLustre9(NestedDown(h, was9), n) == Some(ReadLustre11(h, n))
  {
    NestedUpByName(s, was11, n);
    NestedDownByName(h, was9, n);
  }

  lemma NestedUpByName(s: V9.LustreData, was: V11.LustreData, n: LustreName)
    requires n.OfLustre? || n.OfTarget?
    ensures ReadLustre11(NestedUp(s, was), n) ==
      if ReadLustre9(s, n).Some? then ReadLustre9(s, n).value
      else if n == OfLustre(CapacityMGTMDT) then Text(s.capacityMDT)
      else ReadLustre11(was, n)
  {
    match n
    case OfLustre(_) =>
    case OfTarget(t, x) => NestedUpTarget(s, was, t, x);
  }

  lemma NestedUpTarget(s: V9.LustreData, was: V11.LustreData, t: Target, x: TargetField)
    ensures ReadLustre11(NestedUp(s, was), OfTarget(t, x)) ==
      if ReadLustre9(s, OfTarget(t, x)).Some? then ReadLustre9(s, OfTarget(t, x)).value
      else ReadLustre11(was, OfTarget(t, x))
  {}

  lemma NestedDownByName(h: V11.LustreData, was: V9.LustreData, n: LustreName)
    requires n.OfLustre? || n.OfTarget?
    ensures ReadLustre9(NestedDown(h, was), n).Some? ==> ReadLustre9(NestedDown(h, was), n) == Some(ReadLustre11(h, n))
  {}

  /** The client commands v1alpha9 names are the hub's of the same name. */
  ghost predicate SameClient(n: V11.ClientCmdLines, c: V9.ClientCmdLines) {
    forall x :: Client9(c, x).Some? ==> Client9(c, x) == Some(Client11(n, x))
  }

  /** Into a fresh destination the nested up-conversion is the name-for-name mapping of the client commands exactly
      when there is no command list to cross or to drop. */
  lemma NestedIsNameForNameIff(s: V9.LustreData)
    ensures SameClient(NestedUp(s, V11.ZERO_LUSTRE).clientOptions.cmdLines, s.clientCmdLines) <==>
      var c := s.clientCmdLines;
      && c.rabbitPostSetup == c.rabbitPreTeardown == Nil
      && c.rabbitPreMount == c.rabbitPostMount == c.rabbitPreUnmount == c.rabbitPostUnmount == Nil
      && c.computePreMount == c.computePostMount == c.computePreUnmount == c.computePostUnmount == Nil
  {
    NestedUpClient(s, V11.ZERO_LUSTRE);
    FreshClientByName(NestedUp(s, V11.ZERO_LUSTRE).clientOptions.cmdLines, s.clientCmdLines);
  }

  lemma FreshClientByName(n: V11.ClientCmdLines, c: V9.ClientCmdLines)
    requires n == V11.ZERO_LUSTRE.clientOptions.cmdLines.(
      mountRabbit := c.mountRabbit, mountCompute := c.mountCompute,
      rabbitPostSetup := c.rabbitPostMount, rabbitPreTeardown := c.rabbitPreUnmount)
    ensures SameClient(n, c) <==>
      && c.rabbitPostSetup == c.rabbitPreTeardown == Nil
      && c.rabbitPreMount == c.rabbitPostMount == c.rabbitPreUnmount == c.rabbitPostUnmount == Nil
      && c.computePreMount == c.computePostMount == c.computePreUnmount == c.computePostUnmount == Nil
  {
    if SameClient(n, c) {
      assert Client9(c, RabbitPostSetup) == Some(Client11(n, RabbitPostSetup));
      assert Client9(c, RabbitPreTeardown) == Some(Client11(n, RabbitPreTeardown));
      assert Client9(c, RabbitPreMount) == Some(Client11(n, RabbitPreMount));
      assert Client9(c, RabbitPostMount) == Some(Client11(n, RabbitPostMount));
      assert Client9(c, RabbitPreUnmount) == Some(Client11(n, RabbitPreUnmount));
      assert Client9(c, RabbitPostUnmount) == Some(Client11(n, RabbitPostUnmount));
      assert Client9(c, ComputePreMount) == Some(Client11(n, ComputePreMount));
      assert Client9(c, ComputePostMount) == Some(Client11(n, ComputePostMount));
      assert Client9(c, ComputePreUnmount) == Some(Client11(n, ComputePreUnmount));
      assert Client9(c, ComputePostUnmount) == Some(Client11(n, ComputePostUnmount));
    }
  }
}
