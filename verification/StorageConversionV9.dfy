/** Storage profiles between v1alpha9 and the hub. */
module StorageConversionV9 {
  import opened GoValues
  import opened StorageShapes
  import opened Annotations
  import V9 = StorageV9
  import V10 = StorageV10
  import V11 = StorageV11

  // ---------- A hub profile is what v1alpha9 shows plus what it cannot ----------

  /** The fields of a Lustre target that v1alpha9 has no place for. */
  datatype TargetOnly = TargetOnly(zpoolDestroy: string, unmountTarget: string, variableOverride: StringMap)

  datatype ClientOnly = ClientOnly(
    unmountRabbit: string, unmountCompute: string, rabbitPostTeardown: Strings, variableOverride: StringMap)

  datatype LustreOnly = LustreOnly(
    mgtMdtCapacity: string, mgt: TargetOnly, mdt: TargetOnly, mgtMdt: TargetOnly, ost: TargetOnly, client: ClientOnly)

  datatype SharedOnly = SharedOnly(
    rabbitUnmount: string, computeUnmount: string, postTeardown: Strings, variableOverride: StringMap)

  datatype HubOnly = HubOnly(lustre: LustreOnly, gfs2: SharedOnly, xfs: SharedOnly, raw: SharedOnly)

  function OnlyTarget(t: V11.TargetOptions): TargetOnly {
    TargetOnly(t.cmdLines.zpoolDestroy, t.cmdLines.unmountTarget, t.variableOverride)
  }

  function OnlyLustre(l: V11.LustreData): LustreOnly {
    var c := l.clientOptions.cmdLines;
    LustreOnly(
      l.mgtMdtOptions.capacity,
      OnlyTarget(l.mgtOptions.target), OnlyTarget(l.mdtOptions.target),
      OnlyTarget(l.mgtMdtOptions.target), OnlyTarget(l.ostOptions.target),
      ClientOnly(c.unmountRabbit, c.unmountCompute, c.rabbitPostTeardown, l.clientOptions.variableOverride))
  }

  function OnlyShared(d: V11.SharedData): SharedOnly {
    SharedOnly(d.fileSystemCommands.rabbitCommands.unmount, d.fileSystemCommands.computeCommands.unmount,
               d.userCommands.postTeardown, d.variableOverride)
  }

  function Only(h: V11.ProfileData): HubOnly {
    HubOnly(OnlyLustre(h.lustreStorage), OnlyShared(h.gfs2Storage), OnlyShared(h.xfsStorage), OnlyShared(h.rawStorage))
  }

  function JoinTarget(c: V9.CmdLines, m: V9.MiscOptions, o: TargetOnly): V11.TargetOptions {
    V11.TargetOptions(
      V11.CmdLines(c.zpoolCreate, o.zpoolDestroy, c.zpoolReplace, c.mkfs, c.mountTarget, o.unmountTarget,
                   c.postActivate, c.preDeactivate),
      o.variableOverride, m.colocateComputes, m.count, m.scale, m.storageLabels)
  }

  function JoinClient(c: V9.ClientCmdLines, o: ClientOnly): V11.ClientOptions {
    V11.ClientOptions(
      V11.ClientCmdLines(
        c.mountRabbit, c.rabbitPostSetup, c.rabbitPreTeardown, o.rabbitPostTeardown,
        c.mountCompute, o.unmountRabbit, o.unmountCompute,
        c.rabbitPreMount, c.rabbitPostMount, c.rabbitPreUnmount, c.rabbitPostUnmount,
        c.computePreMount, c.computePostMount, c.computePreUnmount, c.computePostUnmount),
      o.variableOverride)
  }

  function JoinLustre(l: V9.LustreData, o: LustreOnly): V11.LustreData {
    V11.LustreData(
      l.combinedMGTMDT,
      V11.MgtOptions(l.externalMGS, l.standaloneMGTPoolName, l.capacityMGT,
                     JoinTarget(l.mgtCmdLines, l.mgtOptions, o.mgt), l.preMountMGTCmds),
      V11.MdtOptions(l.capacityMDT, l.exclusiveMDT, JoinTarget(l.mdtCmdLines, l.mdtOptions, o.mdt)),
      V11.MgtMdtOptions(o.mgtMdtCapacity, JoinTarget(l.mgtMdtCmdLines, l.mgtMdtOptions, o.mgtMdt)),
      V11.OstOptions(l.capacityScalingFactor, JoinTarget(l.ostCmdLines, l.ostOptions, o.ost)),
      JoinClient(l.clientCmdLines, o.client))
  }

  function JoinShared(d: V9.SharedData, o: SharedOnly): V11.SharedData {
    var rabbit, compute := d.fileSystemCommands.rabbitCommands, d.fileSystemCommands.computeCommands;
    V11.SharedData(
      V11.FileSystem(V11.RabbitFileSystem(rabbit.mkfs, rabbit.mount, o.rabbitUnmount, rabbit.userCommands),
                     V11.ComputeFileSystem(compute.mount, o.computeUnmount, compute.userCommands)),
      d.blockDeviceCommands,
      V11.UserCommands(d.userCommands.postActivate, d.userCommands.preDeactivate, d.userCommands.postSetup,
                       d.userCommands.preTeardown, o.postTeardown),
      d.sharedAllocation, d.storageLabels, d.capacityScalingFactor, d.allocationPadding, o.variableOverride)
  }

  function Join(s: V9.ProfileData, o: HubOnly): V11.ProfileData {
    V11.ProfileData(
      s.isDefault, s.pinned, JoinLustre(s.lustreStorage, o.lustre), JoinShared(s.gfs2Storage, o.gfs2),
      JoinShared(s.xfsStorage, o.xfs), JoinShared(s.rawStorage, o.raw))
  }

  // ---------- The view v1alpha9 has of a hub profile ----------

  function DownCmdLines(t: V11.TargetOptions): V9.CmdLines {
    var c := t.cmdLines;
    V9.CmdLines(c.zpoolCreate, c.zpoolReplace, c.mkfs, c.mountTarget, c.postActivate, c.preDeactivate)
  }

  function DownMisc(t: V11.TargetOptions): V9.MiscOptions {
    V9.MiscOptions(t.colocateComputes, t.count, t.scale, t.storageLabels)
  }

  function DownClient(c: V11.ClientCmdLines): V9.ClientCmdLines {
    V9.ClientCmdLines(
      c.mountRabbit, c.rabbitPostSetup, c.rabbitPreTeardown, c.mountCompute,
      c.rabbitPreMount, c.rabbitPostMount, c.rabbitPreUnmount, c.rabbitPostUnmount,
      c.computePreMount, c.computePostMount, c.computePreUnmount, c.computePostUnmount)
  }

  function DownLustre(l: V11.LustreData): V9.LustreData {
    V9.LustreData(
      l.combinedMGTMDT, l.mgtOptions.externalMGS, l.mgtOptions.capacity, l.mdtOptions.capacity, l.mdtOptions.exclusive,
      l.ostOptions.capacityScalingFactor, l.mgtOptions.standaloneMGTPoolName,
      DownCmdLines(l.mgtOptions.target), DownCmdLines(l.mdtOptions.target),
      DownCmdLines(l.mgtMdtOptions.target), DownCmdLines(l.ostOptions.target),
      DownMisc(l.mgtOptions.target), DownMisc(l.mdtOptions.target),
      DownMisc(l.mgtMdtOptions.target), DownMisc(l.ostOptions.target),
      DownClient(l.clientOptions.cmdLines), l.mgtOptions.preMountCommands)
  }

  function DownShared(d: V11.SharedData): V9.SharedData {
    var rabbit, compute := d.fileSystemCommands.rabbitCommands, d.fileSystemCommands.computeCommands;
    V9.SharedData(
      V9.FileSystem(V9.RabbitFileSystem(rabbit.mkfs, rabbit.mount, rabbit.userCommands),
                    V9.ComputeFileSystem(compute.mount, compute.userCommands)),
      d.blockDeviceCommands,
      V10.UserCommands(d.userCommands.postActivate, d.userCommands.preDeactivate, d.userCommands.postSetup,
                       d.userCommands.preTeardown),
      d.sharedAllocation, d.storageLabels, d.capacityScalingFactor, d.allocationPadding)
  }

  function Down(h: V11.ProfileData): V9.ProfileData {
    V9.ProfileData(
      h.isDefault, h.pinned, DownLustre(h.lustreStorage), DownShared(h.gfs2Storage), DownShared(h.xfsStorage),
      DownShared(h.rawStorage))
  }

  /** What up-conversion builds: the hub-only fields come from the stash, or else stay as they were in the
      destination, except the combined target's capacity, which falls back to the MDT capacity. */
  function Up(s: V9.ProfileData, stash: Option<V11.ProfileData>, dst: V11.ProfileData): V11.ProfileData {
    var kept := Only(dst);
    Join(s, match stash
            case Some(r) => Only(r)
            case None => kept.(lustre := kept.lustre.(mgtMdtCapacity := s.lustreStorage.capacityMDT)))
  }

  // ---------- Generated and manual nested conversions ----------

  /** The nested conversion of the Lustre section. It crosses two pairs of client commands. */
  method ConvertLustreTo11(src: V9.LustreData, out: V11.LustreData) returns (l: V11.LustreData)
    ensures l == NestedUp(src, out)
  {
    l := AssignTargets(src, out);
    var c := l.clientOptions.cmdLines;
    c := c.(mountRabbit := src.clientCmdLines.mountRabbit);
    c := c.(mountCompute := src.clientCmdLines.mountCompute);
    c := c.(rabbitPostSetup := src.clientCmdLines.rabbitPostMount);
    c := c.(rabbitPreTeardown := src.clientCmdLines.rabbitPreUnmount);
    l := l.(clientOptions := l.clientOptions.(cmdLines := c));
  }

  /** What the nested conversion leaves: name for name outside the client, four client commands otherwise. */
  function NestedUp(src: V9.LustreData, out: V11.LustreData): V11.LustreData {
    var only := OnlyLustre(out).(mgtMdtCapacity := src.capacityMDT);
    var was := DownClient(out.clientOptions.cmdLines);
    JoinLustre(
      src.(clientCmdLines := was.(mountRabbit := src.clientCmdLines.mountRabbit,
                                  mountCompute := src.clientCmdLines.mountCompute,
                                  rabbitPostSetup := src.clientCmdLines.rabbitPostMount,
                                  rabbitPreTeardown := src.clientCmdLines.rabbitPreUnmount)),
      only)
  }

  method ConvertLustreTo9(src: V11.LustreData, out: V9.LustreData) returns (l: V9.LustreData)
    ensures l == NestedDown(src, out)
  {
    l := ReadTargets(src, out);
    var c := l.clientCmdLines;
    c := c.(mountRabbit := src.clientOptions.cmdLines.mountRabbit);
    c := c.(mountCompute := src.clientOptions.cmdLines.mountCompute);
    c := c.(rabbitPostMount := src.clientOptions.cmdLines.rabbitPostSetup);
    c := c.(rabbitPreUnmount := src.clientOptions.cmdLines.rabbitPreTeardown);
    l := l.(clientCmdLines := c);
  }

  function NestedDown(src: V11.LustreData, out: V9.LustreData): V9.LustreData {
    var c := src.clientOptions.cmdLines;
    DownLustre(src).(clientCmdLines := out.clientCmdLines.(
      mountRabbit := c.mountRabbit, mountCompute := c.mountCompute,
      rabbitPostMount := c.rabbitPostSetup, rabbitPreUnmount := c.rabbitPreTeardown))
  }

  method ConvertSharedTo11(src: V9.SharedData, out: V11.SharedData) returns (d: V11.SharedData)
    ensures d == JoinShared(src, OnlyShared(out))
  {
    d := out;
    var rabbit := d.fileSystemCommands.rabbitCommands;
    rabbit := rabbit.(mkfs := src.fileSystemCommands.rabbitCommands.mkfs);
    rabbit := rabbit.(mount := src.fileSystemCommands.rabbitCommands.mount);
    rabbit := rabbit.(userCommands := src.fileSystemCommands.rabbitCommands.userCommands);
    var compute := d.fileSystemCommands.computeCommands;
    compute := compute.(mount := src.fileSystemCommands.computeCommands.mount);
    compute := compute.(userCommands := src.fileSystemCommands.computeCommands.userCommands);
    d := d.(fileSystemCommands := V11.FileSystem(rabbit, compute));
    d := d.(blockDeviceCommands := src.blockDeviceCommands);
    var user := d.userCommands;
    user := user.(postActivate := src.userCommands.postActivate);
    user := user.(preDeactivate := src.userCommands.preDeactivate);
    user := user.(postSetup := src.userCommands.postSetup);
    user := user.(preTeardown := src.userCommands.preTeardown);
    d := d.(userCommands := user);
    d := d.(sharedAllocation := src.sharedAllocation);
    d := d.(storageLabels := src.storageLabels);
    d := d.(capacityScalingFactor := src.capacityScalingFactor);
    d := d.(allocationPadding := src.allocationPadding);
  }

  method ConvertSharedTo9(src: V11.SharedData, out: V9.SharedData) returns (d: V9.SharedData)
    ensures d == DownShared(src)
  {
    d := out;
    var rabbit := d.fileSystemCommands.rabbitCommands;
    rabbit := rabbit.(mkfs := src.fileSystemCommands.rabbitCommands.mkfs);
    rabbit := rabbit.(mount := src.fileSystemCommands.rabbitCommands.mount);
    rabbit := rabbit.(userCommands := src.fileSystemCommands.rabbitCommands.userCommands);
    var compute := d.fileSystemCommands.computeCommands;
    compute := compute.(mount := src.fileSystemCommands.computeCommands.mount);
    compute := compute.(userCommands := src.fileSystemCommands.computeCommands.userCommands);
    d := d.(fileSystemCommands := V9.FileSystem(rabbit, compute));
    d := d.(blockDeviceCommands := src.blockDeviceCommands);
    var user := d.userCommands;
    user := user.(postActivate := src.userCommands.postActivate);
    user := user.(preDeactivate := src.userCommands.preDeactivate);
    user := user.(postSetup := src.userCommands.postSetup);
    user := user.(preTeardown := src.userCommands.preTeardown);
    d := d.(userCommands := user);
    d := d.(sharedAllocation := src.sharedAllocation);
    d := d.(storageLabels := src.storageLabels);
    d := d.(capacityScalingFactor := src.capacityScalingFactor);
    d := d.(allocationPadding := src.allocationPadding);
  }

  method ConvertDataTo11(src: V9.ProfileData, out: V11.ProfileData) returns (d: V11.ProfileData)
    ensures d.isDefault == src.isDefault && d.pinned == src.pinned
    ensures d.lustreStorage == NestedUp(src.lustreStorage, out.lustreStorage)
    ensures d.gfs2Storage == JoinShared(src.gfs2Storage, OnlyShared(out.gfs2Storage))
    ensures d.xfsStorage == JoinShared(src.xfsStorage, OnlyShared(out.xfsStorage))
    ensures d.rawStorage == JoinShared(src.rawStorage, OnlyShared(out.rawStorage))
  {
    d := out.(isDefault := src.isDefault);
    d := d.(pinned := src.pinned);
    var lustre := ConvertLustreTo11(src.lustreStorage, d.lustreStorage);
    d := d.(lustreStorage := lustre);
    var gfs2 := ConvertSharedTo11(src.gfs2Storage, d.gfs2Storage);
    d := d.(gfs2Storage := gfs2);
    var xfs := ConvertSharedTo11(src.xfsStorage, d.xfsStorage);
    d := d.(xfsStorage := xfs);
    var raw := ConvertSharedTo11(src.rawStorage, d.rawStorage);
    d := d.(rawStorage := raw);
  }

  method ConvertDataTo9(src: V11.ProfileData, out: V9.ProfileData) returns (d: V9.ProfileData)
    ensures d == Down(src).(lustreStorage := NestedDown(src.lustreStorage, out.lustreStorage))
  {
    d := out.(isDefault := src.isDefault);
    d := d.(pinned := src.pinned);
    var lustre := ConvertLustreTo9(src.lustreStorage, d.lustreStorage);
    d := d.(lustreStorage := lustre);
    var gfs2 := ConvertSharedTo9(src.gfs2Storage, d.gfs2Storage);
    d := d.(gfs2Storage := gfs2);
    var xfs := ConvertSharedTo9(src.xfsStorage, d.xfsStorage);
    d := d.(xfsStorage := xfs);
    var raw := ConvertSharedTo9(src.rawStorage, d.rawStorage);
    d := d.(rawStorage := raw);
  }

  // ---------- The assignments of the Lustre section ----------

  /** The ten assignments made for each kind of target. */
  method AssignTarget(c: V9.CmdLines, m: V9.MiscOptions, out: V11.TargetOptions) returns (t: V11.TargetOptions)
    ensures t == JoinTarget(c, m, OnlyTarget(out))
  {
    var lines := out.cmdLines;
    lines := lines.(zpoolCreate := c.zpoolCreate);
    lines := lines.(zpoolReplace := c.zpoolReplace);
    lines := lines.(mkfs := c.mkfs);
    lines := lines.(mountTarget := c.mountTarget);
    lines := lines.(postActivate := c.postActivate);
    lines := lines.(preDeactivate := c.preDeactivate);
    t := out.(cmdLines := lines);
    t := t.(colocateComputes := m.colocateComputes);
    t := t.(count := m.count);
    t := t.(scale := m.scale);
    t := t.(storageLabels := m.storageLabels);
  }

  /** The target assignments, which the nested and the object conversion share. */
  method AssignTargets(src: V9.LustreData, out: V11.LustreData) returns (l: V11.LustreData)
    ensures l ==
      JoinLustre(src, OnlyLustre(out).(mgtMdtCapacity := src.capacityMDT)).(clientOptions := out.clientOptions)
  {
    l := out.(combinedMGTMDT := src.combinedMGTMDT);

    var mgt := l.mgtOptions;
    mgt := mgt.(externalMGS := src.externalMGS);
    mgt := mgt.(standaloneMGTPoolName := src.standaloneMGTPoolName);
    mgt := mgt.(capacity := src.capacityMGT);
    var mgtTarget := AssignTarget(src.mgtCmdLines, src.mgtOptions, mgt.target);
    mgt := mgt.(target := mgtTarget);
    mgt := mgt.(preMountCommands := src.preMountMGTCmds);
    l := l.(mgtOptions := mgt);

    var mdt := l.mdtOptions;
    mdt := mdt.(capacity := src.capacityMDT);
    mdt := mdt.(exclusive := src.exclusiveMDT);
    var mdtTarget := AssignTarget(src.mdtCmdLines, src.mdtOptions, mdt.target);
    mdt := mdt.(target := mdtTarget);
    l := l.(mdtOptions := mdt);

    var both := l.mgtMdtOptions;
    both := both.(capacity := src.capacityMDT);
    var bothTarget := AssignTarget(src.mgtMdtCmdLines, src.mgtMdtOptions, both.target);
    both := both.(target := bothTarget);
    l := l.(mgtMdtOptions := both);

    var ost := l.ostOptions;
    ost := ost.(capacityScalingFactor := src.capacityScalingFactor);
    var ostTarget := AssignTarget(src.ostCmdLines, src.ostOptions, ost.target);
    ost := ost.(target := ostTarget);
    l := l.(ostOptions := ost);
  }

  method AssignClient(src: V9.ClientCmdLines, out: V11.ClientOptions) returns (o: V11.ClientOptions)
    ensures o == JoinClient(src, ClientOnly(out.cmdLines.unmountRabbit, out.cmdLines.unmountCompute,
                                            out.cmdLines.rabbitPostTeardown, out.variableOverride))
  {
    var c := out.cmdLines;
    c := c.(mountRabbit := src.mountRabbit);
    c := c.(mountCompute := src.mountCompute);
    c := c.(rabbitPostSetup := src.rabbitPostSetup);
    c := c.(rabbitPreTeardown := src.rabbitPreTeardown);
    c := c.(rabbitPreMount := src.rabbitPreMount);
    c := c.(rabbitPostMount := src.rabbitPostMount);
    c := c.(rabbitPreUnmount := src.rabbitPreUnmount);
    c := c.(rabbitPostUnmount := src.rabbitPostUnmount);
    c := c.(computePreMount := src.computePreMount);
    c := c.(computePostMount := src.computePostMount);
    c := c.(computePreUnmount := src.computePreUnmount);
    c := c.(computePostUnmount := src.computePostUnmount);
    o := out.(cmdLines := c);
  }

  /** The object conversion's own pass over the Lustre section, run after the nested conversion. */
  method AssignLustre(src: V9.LustreData, mid: V11.LustreData) returns (l: V11.LustreData)
    ensures l == JoinLustre(src, OnlyLustre(mid).(mgtMdtCapacity := src.capacityMDT))
  {
    l := AssignTargets(src, mid);
    var client := AssignClient(src.clientCmdLines, l.clientOptions);
    l := l.(clientOptions := client);
  }

  method ReadTarget(t: V11.TargetOptions, outLines: V9.CmdLines, outMisc: V9.MiscOptions)
    returns (c: V9.CmdLines, m: V9.MiscOptions)
    ensures c == DownCmdLines(t) && m == DownMisc(t)
  {
    c := outLines.(zpoolCreate := t.cmdLines.zpoolCreate);
    c := c.(zpoolReplace := t.cmdLines.zpoolReplace);
    c := c.(mkfs := t.cmdLines.mkfs);
    c := c.(mountTarget := t.cmdLines.mountTarget);
    c := c.(postActivate := t.cmdLines.postActivate);
    c := c.(preDeactivate := t.cmdLines.preDeactivate);
    m := outMisc.(colocateComputes := t.colocateComputes);
    m := m.(count := t.count);
    m := m.(scale := t.scale);
    m := m.(storageLabels := t.storageLabels);
  }

  method ReadTargets(src: V11.LustreData, out: V9.LustreData) returns (l: V9.LustreData)
    ensures l == DownLustre(src).(clientCmdLines := out.clientCmdLines)
  {
    l := out.(combinedMGTMDT := src.combinedMGTMDT);

    l := l.(externalMGS := src.mgtOptions.externalMGS);
    l := l.(standaloneMGTPoolName := src.mgtOptions.standaloneMGTPoolName);
    l := l.(capacityMGT := src.mgtOptions.capacity);
    var c, m := ReadTarget(src.mgtOptions.target, l.mgtCmdLines, l.mgtOptions);
    l := l.(mgtCmdLines := c, mgtOptions := m);
    l := l.(preMountMGTCmds := src.mgtOptions.preMountCommands);

    l := l.(capacityMDT := src.mdtOptions.capacity);
    l := l.(exclusiveMDT := src.mdtOptions.exclusive);
    c, m := ReadTarget(src.mdtOptions.target, l.mdtCmdLines, l.mdtOptions);
    l := l.(mdtCmdLines := c, mdtOptions := m);

    c, m := ReadTarget(src.mgtMdtOptions.target, l.mgtMdtCmdLines, l.mgtMdtOptions);
    l := l.(mgtMdtCmdLines := c, mgtMdtOptions := m);

    l := l.(capacityScalingFactor := src.ostOptions.capacityScalingFactor);
    c, m := ReadTarget(src.ostOptions.target, l.ostCmdLines, l.ostOptions);
    l := l.(ostCmdLines := c, ostOptions := m);
  }

  /** The object conversion's own pass over the Lustre section on the way down. */
  method ReadLustre(src: V11.LustreData, mid: V9.LustreData) returns (l: V9.LustreData)
    ensures l == DownLustre(src)
  {
    l := ReadTargets(src, mid);
    var c := l.clientCmdLines;
    var from := src.clientOptions.cmdLines;
    c := c.(mountRabbit := from.mountRabbit);
    c := c.(mountCompute := from.mountCompute);
    c := c.(rabbitPostSetup := from.rabbitPostSetup);
    c := c.(rabbitPreTeardown := from.rabbitPreTeardown);
    c := c.(rabbitPreMount := from.rabbitPreMount);
    c := c.(rabbitPostMount := from.rabbitPostMount);
    c := c.(rabbitPreUnmount := from.rabbitPreUnmount);
    c := c.(rabbitPostUnmount := from.rabbitPostUnmount);
    c := c.(computePreMount := from.computePreMount);
    c := c.(computePostMount := from.computePostMount);
    c := c.(computePreUnmount := from.computePreUnmount);
    c := c.(computePostUnmount := from.computePostUnmount);
    l := l.(clientCmdLines := c);
  }

  /** The generated conversion, then the object conversion's own pass. */
  method AssignData(src: V9.ProfileData, out: V11.ProfileData) returns (d: V11.ProfileData)
    ensures d == Up(src, None, out)
  {
    d := ConvertDataTo11(src, out);
    var lustre := AssignLustre(src.lustreStorage, d.lustreStorage);
    d := d.(lustreStorage := lustre);
  }

  method ReadData(src: V11.ProfileData, out: V9.ProfileData) returns (d: V9.ProfileData)
    ensures d == Down(src)
  {
    d := ConvertDataTo9(src, out);
    var lustre := ReadLustre(src.lustreStorage, d.lustreStorage);
    d := d.(lustreStorage := lustre);
  }

  // ---------- Restoring from the stash ----------

  method RestoreTarget(t: V11.TargetOptions, r: V11.TargetOptions) returns (o: V11.TargetOptions)
    ensures o == JoinTarget(DownCmdLines(t), DownMisc(t), OnlyTarget(r))
  {
    o := t.(variableOverride := r.variableOverride);
    o := o.(cmdLines := o.cmdLines.(unmountTarget := r.cmdLines.unmountTarget));
    o := o.(cmdLines := o.cmdLines.(zpoolDestroy := r.cmdLines.zpoolDestroy));
  }

  method RestoreShared(d: V11.SharedData, r: V11.SharedData) returns (o: V11.SharedData)
    ensures o == JoinShared(DownShared(d), OnlyShared(r))
  {
    o := d.(variableOverride := r.variableOverride);
    var fs := o.fileSystemCommands;
    fs := fs.(rabbitCommands := fs.rabbitCommands.(unmount := r.fileSystemCommands.rabbitCommands.unmount));
    fs := fs.(computeCommands := fs.computeCommands.(unmount := r.fileSystemCommands.computeCommands.unmount));
    o := o.(fileSystemCommands := fs);
    o := o.(userCommands := o.userCommands.(postTeardown := r.userCommands.postTeardown));
  }

  method RestoreLustre(l: V11.LustreData, r: V11.LustreData) returns (o: V11.LustreData)
    ensures o == JoinLustre(DownLustre(l), OnlyLustre(r))
  {
    o := l.(mgtMdtOptions := l.mgtMdtOptions.(capacity := r.mgtMdtOptions.capacity));
    var t := RestoreTarget(o.mgtOptions.target, r.mgtOptions.target);
    o := o.(mgtOptions := o.mgtOptions.(target := t));
    t := RestoreTarget(o.mgtMdtOptions.target, r.mgtMdtOptions.target);
    o := o.(mgtMdtOptions := o.mgtMdtOptions.(target := t));
    t := RestoreTarget(o.mdtOptions.target, r.mdtOptions.target);
    o := o.(mdtOptions := o.mdtOptions.(target := t));
    t := RestoreTarget(o.ostOptions.target, r.ostOptions.target);
    o := o.(ostOptions := o.ostOptions.(target := t));
    var c := o.clientOptions;
    c := c.(variableOverride := r.clientOptions.variableOverride);
    c := c.(cmdLines := c.cmdLines.(unmountRabbit := r.clientOptions.cmdLines.unmountRabbit));
    c := c.(cmdLines := c.cmdLines.(unmountCompute := r.clientOptions.cmdLines.unmountCompute));
    c := c.(cmdLines := c.cmdLines.(rabbitPostTeardown := r.clientOptions.cmdLines.rabbitPostTeardown));
    o := o.(clientOptions := c);
  }

  method Restore(d: V11.ProfileData, r: V11.ProfileData) returns (o: V11.ProfileData)
    ensures o == Join(Down(d), Only(r))
  {
    var lustre := RestoreLustre(d.lustreStorage, r.lustreStorage);
    o := d.(lustreStorage := lustre);
    var gfs2 := RestoreShared(o.gfs2Storage, r.gfs2Storage);
    o := o.(gfs2Storage := gfs2);
    var xfs := RestoreShared(o.xfsStorage, r.xfsStorage);
    o := o.(xfsStorage := xfs);
    var raw := RestoreShared(o.rawStorage, r.rawStorage);
    o := o.(rawStorage := raw);
  }

  lemma DownAfterUp(s: V9.ProfileData, dst: V11.ProfileData)
    ensures Down(Up(s, None, dst)) == s
  {}

  // ---------- The objects ----------

  type Spoke = Object<V9.ProfileData, V11.ProfileData>
  type Hub = Object<V11.ProfileData, V11.ProfileData>

  /** Up-conversion. The two objects end up with one annotation map between them, so taking the stash out of
      the source also takes it out of the hub object. */
  method ConvertTo(src: Spoke, dst: Hub) returns (ok: bool)
    modifies dst, src.annotations
    ensures ok == !old(StashIn(src.annotations)).Malformed?
    ensures src.data == old(src.data) && src.annotations == old(src.annotations)
    ensures dst.name == src.name && dst.namespace == src.namespace && dst.annotations == src.annotations
    ensures dst.data == Up(src.data, StashedData(old(StashIn(src.annotations))), old(dst.data))
    ensures src.annotations != null ==>
      src.annotations.entries ==
        old(src.annotations.entries) - (if ok then {DATA_ANNOTATION} else {})
  {
    CopyMeta(src, dst);
    DownAfterUp(src.data, dst.data);
    var data := AssignData(src.data, dst.data);
    dst.data := data;

    var stash := UnmarshalData(src);
    if stash.Malformed? {
      return false;
    }
    if stash.Restored? {
      var restored := Restore(dst.data, stash.data);
      dst.data := restored;
    }
    return true;
  }

  /** Down-conversion. A hub object that has annotations gets the stash into its own map as well. */
  method ConvertFrom(dst: Spoke, src: Hub)
    modifies dst, src.annotations
    ensures src.data == old(src.data) && src.annotations == old(src.annotations)
    ensures dst.name == src.name && dst.namespace == src.namespace
    ensures dst.data == Down(src.data)
    ensures StashIn(dst.annotations) == Restored(V11.Canon(src.data))
    ensures src.annotations != null ==> dst.annotations == src.annotations
    ensures src.annotations == null ==> fresh(dst.annotations)
    ensures dst.annotations.entries ==
      (if src.annotations == null then map[] else old(src.annotations.entries))[
        DATA_ANNOTATION := Json(V11.Canon(src.data))]
  {
    CopyMeta(src, dst);
    var data := ReadData(src.data, dst.data);
    dst.data := data;
    MarshalData(V11.Canon(src.data), dst);
  }
}
