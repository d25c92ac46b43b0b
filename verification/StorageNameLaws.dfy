/** Every field of a storage profile keeps its name through the conversions, from either old version and back. */
module StorageNameLaws {
  import opened GoValues
  import opened StorageShapes
  import opened StorageNames
  import V9 = StorageV9
  import V10 = StorageV10
  import V11 = StorageV11
  import C9 = StorageConversionV9
  import C10 = StorageConversionV10

  // ---------- v1alpha9 ----------

  /** What v1alpha9 shows of a hub profile is, under every name it has, what the hub profile holds under that name. */
  lemma DownByName9(h: V11.ProfileData, n: Name)
    ensures Read9(C9.Down(h), n).Some? ==> Read9(C9.Down(h), n) == Some(Read11(h, n))
  {}

  lemma JoinedTarget9(c: V9.CmdLines, m: V9.MiscOptions, t: V11.TargetOptions, x: TargetField)
    ensures Target11(C9.JoinTarget(c, m, C9.OnlyTarget(t)), x) ==
      if Target9(c, m, x).Some? then Target9(c, m, x).value else Target11(t, x)
  {}

  lemma JoinedClient9(c: V9.ClientCmdLines, l: V11.LustreData, x: ClientField)
    ensures var joined := C9.JoinClient(c, C9.OnlyLustre(l).client);
      && Client11(joined.cmdLines, x) ==
           (if Client9(c, x).Some? then Client9(c, x).value else Client11(l.clientOptions.cmdLines, x))
      && joined.variableOverride == l.clientOptions.variableOverride
  {}

  lemma JoinedSection9(d: V9.SharedData, k: V11.SharedData, x: SectionField)
    ensures Section11(C9.JoinShared(d, C9.OnlyShared(k)), x) ==
      if Section9(d, x).Some? then Section9(d, x).value else Section11(k, x)
  {}

  /** The capacity of the combined target, for which v1alpha9 has no name of its own. */
  const COMBINED := OfLustre(CapacityMGTMDT)

  lemma JoinedLustre9(l: V9.LustreData, k: V11.LustreData, n: LustreName)
    ensures ReadLustre11(C9.JoinLustre(l, C9.OnlyLustre(k)), n) ==
      if ReadLustre9(l, n).Some? then ReadLustre9(l, n).value else ReadLustre11(k, n)
  {
    match n
    case OfTarget(Mgt, x) => JoinedTarget9(l.mgtCmdLines, l.mgtOptions, k.mgtOptions.target, x);
    case OfTarget(Mdt, x) => JoinedTarget9(l.mdtCmdLines, l.mdtOptions, k.mdtOptions.target, x);
    case OfTarget(MgtMdt, x) => JoinedTarget9(l.mgtMdtCmdLines, l.mgtMdtOptions, k.mgtMdtOptions.target, x);
    case OfTarget(Ost, x) => JoinedTarget9(l.ostCmdLines, l.ostOptions, k.ostOptions.target, x);
    case OfClient(x) => JoinedClient9(l.clientCmdLines, k, x);
    case _ =>
  }

  /** The hub Lustre section whose own fields are kept: the stash's, or the destination's with the MDT capacity. */
  function KeptLustre9(s: V9.ProfileData, stash: Option<V11.ProfileData>, dst: V11.ProfileData): V11.LustreData {
    if stash.Some? then stash.value.lustreStorage
    else dst.lustreStorage.(mgtMdtOptions := dst.lustreStorage.mgtMdtOptions.(capacity := s.lustreStorage.capacityMDT))
  }

  lemma UpIsJoined9(s: V9.ProfileData, stash: Option<V11.ProfileData>, dst: V11.ProfileData)
    ensures var up, kept := C9.Up(s, stash, dst), if stash.Some? then stash.value else dst;
      && up.isDefault == s.isDefault && up.pinned == s.pinned
      && up.lustreStorage == C9.JoinLustre(s.lustreStorage, C9.OnlyLustre(KeptLustre9(s, stash, dst)))
      && up.gfs2Storage == C9.JoinShared(s.gfs2Storage, C9.OnlyShared(kept.gfs2Storage))
      && up.xfsStorage == C9.JoinShared(s.xfsStorage, C9.OnlyShared(kept.xfsStorage))
      && up.rawStorage == C9.JoinShared(s.rawStorage, C9.OnlyShared(kept.rawStorage))
  {}

  lemma KeptLustreByName9(s: V9.ProfileData, stash: Option<V11.ProfileData>, dst: V11.ProfileData, n: LustreName)
    ensures ReadLustre11(KeptLustre9(s, stash, dst), n) ==
      if n == COMBINED && stash.None? then Text(s.lustreStorage.capacityMDT)
      else ReadLustre11(if stash.Some? then stash.value.lustreStorage else dst.lustreStorage, n)
  {}

  /** Up-conversion gives the hub, under every name, what v1alpha9 has under that name; where it has none, what the
      stash has, or without a stash the destination, save for the combined capacity, which then is the MDT capacity. */
  lemma UpByName9(s: V9.ProfileData, stash: Option<V11.ProfileData>, dst: V11.ProfileData, n: Name)
    ensures Read11(C9.Up(s, stash, dst), n) ==
      if Read9(s, n).Some? then Read9(s, n).value
      else if n == InLustre(COMBINED) && stash.None? then Text(s.lustreStorage.capacityMDT)
      else Read11(if stash.Some? then stash.value else dst, n)
  {
    var kept := if stash.Some? then stash.value else dst;
    UpIsJoined9(s, stash, dst);
    match n
    case InLustre(x) =>
      JoinedLustre9(s.lustreStorage, KeptLustre9(s, stash, dst), x);
      KeptLustreByName9(s, stash, dst, x);
    case InSection(Gfs2, x) => JoinedSection9(s.gfs2Storage, kept.gfs2Storage, x);
    case InSection(Xfs, x) => JoinedSection9(s.xfsStorage, kept.xfsStorage, x);
    case InSection(Raw, x) => JoinedSection9(s.rawStorage, kept.rawStorage, x);
    case _ =>
  }

  // ---------- v1alpha10 ----------

  lemma DownByName10(h: V11.ProfileData, n: Name)
    ensures Read10(C10.Down(h), n).Some? ==> Read10(C10.Down(h), n) == Some(Read11(h, n))
  {}

  lemma JoinedClient10(c: V10.ClientCmdLines, k: V11.ClientCmdLines, x: ClientField)
    ensures Client11(C10.JoinClient(c, k.rabbitPostTeardown), x) ==
      if Client10(c, x).Some? then Client10(c, x).value else Client11(k, x)
  {}

  lemma JoinedSection10(d: V10.SharedData, k: V11.SharedData, x: SectionField)
    ensures Section11(C10.JoinShared(d, k.userCommands.postTeardown), x) ==
      if Section10(d, x).Some? then Section10(d, x).value else Section11(k, x)
  {}

  lemma UpIsJoined10(s: V10.ProfileData, stash: Option<V11.ProfileData>, dst: V11.ProfileData)
    ensures var up, kept := C10.Up(s, stash, dst), if stash.Some? then stash.value else dst;
      && up.isDefault == s.isDefault && up.pinned == s.pinned
      && up.lustreStorage ==
           C10.JoinLustre(s.lustreStorage, kept.lustreStorage.clientOptions.cmdLines.rabbitPostTeardown)
      && up.gfs2Storage == C10.JoinShared(s.gfs2Storage, kept.gfs2Storage.userCommands.postTeardown)
      && up.xfsStorage == C10.JoinShared(s.xfsStorage, kept.xfsStorage.userCommands.postTeardown)
      && up.rawStorage == C10.JoinShared(s.rawStorage, kept.rawStorage.userCommands.postTeardown)
  {}

  lemma JoinedLustre10(l: V10.LustreData, k: V11.LustreData, n: LustreName)
    ensures ReadLustre11(C10.JoinLustre(l, k.clientOptions.cmdLines.rabbitPostTeardown), n) ==
      if ReadLustre10(l, n).Some? then ReadLustre10(l, n).value else ReadLustre11(k, n)
  {
    match n
    case OfClient(x) => JoinedClient10(l.clientOptions.cmdLines, k.clientOptions.cmdLines, x);
    case _ =>
  }

  lemma UpByName10(s: V10.ProfileData, stash: Option<V11.ProfileData>, dst: V11.ProfileData, n: Name)
    ensures Read11(C10.Up(s, stash, dst), n) ==
      if Read10(s, n).Some? then Read10(s, n).value else Read11(if stash.Some? then stash.value else dst, n)
  {
    var kept := if stash.Some? then stash.value else dst;
    UpIsJoined10(s, stash, dst);
    match n
    case InLustre(x) => JoinedLustre10(s.lustreStorage, kept.lustreStorage, x);
    case InSection(Gfs2, x) => JoinedSection10(s.gfs2Storage, kept.gfs2Storage, x);
    case InSection(Xfs, x) => JoinedSection10(s.xfsStorage, kept.xfsStorage, x);
    case InSection(Raw, x) => JoinedSection10(s.rawStorage, kept.rawStorage, x);
    case _ =>
  }

  // ---------- Zero values ----------

  predicate ZeroUser(u: BlockDeviceUserCommands) {
    u.preActivate == u.postActivate == u.preDeactivate == u.postDeactivate == Nil
  }

  predicate ZeroDevice(b: BlockDevice) {
    var r, c := b.rabbitCommands, b.computeCommands;
    && !b.sharedVg
    && r.pvCreate == r.pvRemove == r.vgCreate == r.vgRemove == r.lvCreate == r.lvRemove == ""
    && r.vgChange.lockStart == r.vgChange.lockStop == r.lvChange.activate == r.lvChange.deactivate == ""
    && r.lvmRebuild.vgExtend == r.lvmRebuild.vgReduce == r.lvmRebuild.lvRepair == ""
    && c.vgChange.lockStart == c.vgChange.lockStop == c.lvChange.activate == c.lvChange.deactivate == ""
    && ZeroUser(r.userCommands) && ZeroUser(c.userCommands)
  }

  /** What a variable holds in Go before anything is assigned to it. */
  predicate IsZero(v: Value) {
    match v
    case Text(t) => t == ""
    case List(l) => l == Nil
    case Flag(f) => !f
    case Number(i) => i == 0
    case Overrides(m) => m == NilMap
    case Device(d) => ZeroDevice(d)
    case FsCommands(c) => c.preMount == c.postMount == c.preUnmount == c.postUnmount == Nil
  }

  lemma ZeroIsZero(n: Name)
    ensures IsZero(Read11(V11.ZERO, n))
  {}

  /** So without a stash and into a new object, whatever an old version has no name for arrives as zero; only the
      combined capacity follows v1alpha9's MDT capacity. */
  lemma WithoutStashByName(s9: V9.ProfileData, s10: V10.ProfileData, n: Name)
    ensures Read9(s9, n).None? && n != InLustre(COMBINED) ==> IsZero(Read11(C9.Up(s9, None, V11.ZERO), n))
    ensures Read10(s10, n).None? ==> IsZero(Read11(C10.Up(s10, None, V11.ZERO), n))
  {
    UpByName9(s9, None, V11.ZERO, n);
    UpByName10(s10, None, V11.ZERO, n);
    ZeroIsZero(n);
  }

  // ---------- JSON ----------

  /** A value as another reader gets it from JSON, where empty lists and maps come back nil. */
  function Reread(v: Value): Value {
    match v
    case List(l) => List(if |l.List()| == 0 then Nil else l)
    case Overrides(m) => Overrides(if m.Keys() == {} then NilMap else m)
    case Device(d) => Device(CanonBlock(d))
    case FsCommands(c) => FsCommands(CanonFsUser(c))
    case _ => v
  }

  lemma StashedTarget(t: V11.TargetOptions, x: TargetField)
    ensures Target11(V11.CanonTarget(t), x) == Reread(Target11(t, x))
  {}

  lemma StashedClient(c: V11.ClientCmdLines, x: ClientField)
    ensures Client11(V11.CanonClientCmdLines(c), x) == Reread(Client11(c, x))
  {}

  lemma StashedSection(d: V11.SharedData, x: SectionField)
    ensures Section11(V11.CanonShared(d), x) == Reread(Section11(d, x))
  {}

  lemma StashedLustre(l: V11.LustreData, n: LustreName)
    ensures ReadLustre11(V11.CanonLustre(l), n) == Reread(ReadLustre11(l, n))
  {
    match n
    case OfTarget(Mgt, x) => StashedTarget(l.mgtOptions.target, x);
    case OfTarget(Mdt, x) => StashedTarget(l.mdtOptions.target, x);
    case OfTarget(MgtMdt, x) => StashedTarget(l.mgtMdtOptions.target, x);
    case OfTarget(Ost, x) => StashedTarget(l.ostOptions.target, x);
    case OfClient(x) => StashedClient(l.clientOptions.cmdLines, x);
    case _ =>
  }

  /** The stash holds every field under its own name, as JSON gives it back. */
  lemma StashedByName(h: V11.ProfileData, n: Name)
    ensures Read11(V11.Canon(h), n) == Reread(Read11(h, n))
  {
    match n
    case InLustre(x) => StashedLustre(h.lustreStorage, x);
    case InSection(Gfs2, x) => StashedSection(h.gfs2Storage, x);
    case InSection(Xfs, x) => StashedSection(h.xfsStorage, x);
    case InSection(Raw, x) => StashedSection(h.rawStorage, x);
    case _ =>
  }
}
