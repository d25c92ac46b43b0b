/** Shapes of a storage profile that are the same in v1alpha9, v1alpha10 and v1alpha11. */
module StorageShapes {
  import opened GoValues

  datatype LvmVgChange = LvmVgChange(lockStart: string, lockStop: string)
  datatype LvmLvChange = LvmLvChange(activate: string, deactivate: string)
  datatype LvmRebuild = LvmRebuild(vgExtend: string, vgReduce: string, lvRepair: string)

  datatype BlockDeviceUserCommands = BlockDeviceUserCommands(
    preActivate: Strings, postActivate: Strings, preDeactivate: Strings, postDeactivate: Strings)

  datatype RabbitBlockDevice = RabbitBlockDevice(
    pvCreate: string, pvRemove: string, vgCreate: string, vgChange: LvmVgChange, lvmRebuild: LvmRebuild,
    vgRemove: string, lvCreate: string, lvChange: LvmLvChange, lvRemove: string, userCommands: BlockDeviceUserCommands)

  datatype ComputeBlockDevice = ComputeBlockDevice(
    vgChange: LvmVgChange, lvChange: LvmLvChange, userCommands: BlockDeviceUserCommands)

  datatype BlockDevice = BlockDevice(
    sharedVg: bool, rabbitCommands: RabbitBlockDevice, computeCommands: ComputeBlockDevice)

  datatype FileSystemUserCommands = FileSystemUserCommands(
    preMount: Strings, postMount: Strings, preUnmount: Strings, postUnmount: Strings)

  function CanonBlockUser(u: BlockDeviceUserCommands): BlockDeviceUserCommands {
    BlockDeviceUserCommands(
      u.preActivate.Canon(), u.postActivate.Canon(), u.preDeactivate.Canon(), u.postDeactivate.Canon())
  }

  function CanonBlock(b: BlockDevice): BlockDevice {
    b.(rabbitCommands := b.rabbitCommands.(userCommands := CanonBlockUser(b.rabbitCommands.userCommands)),
       computeCommands := b.computeCommands.(userCommands := CanonBlockUser(b.computeCommands.userCommands)))
  }

  function CanonFsUser(u: FileSystemUserCommands): FileSystemUserCommands {
    FileSystemUserCommands(u.preMount.Canon(), u.postMount.Canon(), u.preUnmount.Canon(), u.postUnmount.Canon())
  }

  // Zero values, what a Go struct holds before anything is assigned to it.
  const ZERO_BLOCK_USER := BlockDeviceUserCommands(Nil, Nil, Nil, Nil)
  const ZERO_BLOCK := BlockDevice(
    false,
    RabbitBlockDevice("", "", "", LvmVgChange("", ""), LvmRebuild("", "", ""), "", "", LvmLvChange("", ""), "",
                      ZERO_BLOCK_USER),
    ComputeBlockDevice(LvmVgChange("", ""), LvmLvChange("", ""), ZERO_BLOCK_USER))
  const ZERO_FS_USER := FileSystemUserCommands(Nil, Nil, Nil, Nil)
}

/** The storage profile of v1alpha11, the hub and storage version. */
module StorageV11 {
  import opened GoValues
  import opened StorageShapes

  datatype CmdLines = CmdLines(
    zpoolCreate: string, zpoolDestroy: string, zpoolReplace: string, mkfs: string,
    mountTarget: string, unmountTarget: string, postActivate: Strings, preDeactivate: Strings)

  datatype TargetOptions = TargetOptions(
    cmdLines: CmdLines, variableOverride: StringMap, colocateComputes: bool, count: int, scale: int,
    storageLabels: Strings)

  datatype MgtOptions = MgtOptions(
    externalMGS: string, standaloneMGTPoolName: string, capacity: string, target: TargetOptions,
    preMountCommands: Strings)

  datatype MdtOptions = MdtOptions(capacity: string, exclusive: bool, target: TargetOptions)

  datatype MgtMdtOptions = MgtMdtOptions(capacity: string, target: TargetOptions)

  datatype OstOptions = OstOptions(capacityScalingFactor: string, target: TargetOptions)

  datatype ClientCmdLines = ClientCmdLines(
    mountRabbit: string, rabbitPostSetup: Strings, rabbitPreTeardown: Strings, rabbitPostTeardown: Strings,
    mountCompute: string, unmountRabbit: string, unmountCompute: string,
    rabbitPreMount: Strings, rabbitPostMount: Strings, rabbitPreUnmount: Strings, rabbitPostUnmount: Strings,
    computePreMount: Strings, computePostMount: Strings, computePreUnmount: Strings, computePostUnmount: Strings)

  datatype ClientOptions = ClientOptions(cmdLines: ClientCmdLines, variableOverride: StringMap)

  datatype LustreData = LustreData(
    combinedMGTMDT: bool, mgtOptions: MgtOptions, mdtOptions: MdtOptions, mgtMdtOptions: MgtMdtOptions,
    ostOptions: OstOptions, clientOptions: ClientOptions)

  datatype RabbitFileSystem = RabbitFileSystem(
    mkfs: string, mount: string, unmount: string, userCommands: FileSystemUserCommands)

  datatype ComputeFileSystem = ComputeFileSystem(mount: string, unmount: string, userCommands: FileSystemUserCommands)

  datatype FileSystem = FileSystem(rabbitCommands: RabbitFileSystem, computeCommands: ComputeFileSystem)

  datatype UserCommands = UserCommands(
    postActivate: Strings, preDeactivate: Strings, postSetup: Strings, preTeardown: Strings, postTeardown: Strings)

  datatype SharedData = SharedData(
    fileSystemCommands: FileSystem, blockDeviceCommands: BlockDevice, userCommands: UserCommands,
    sharedAllocation: bool, storageLabels: Strings, capacityScalingFactor: string, allocationPadding: string,
    variableOverride: StringMap)

  datatype ProfileData = ProfileData(
    isDefault: bool, pinned: bool, lustreStorage: LustreData, gfs2Storage: SharedData, xfsStorage: SharedData,
    rawStorage: SharedData)

  // ---------- What comes back from JSON ----------

  function CanonCmdLines(c: CmdLines): CmdLines {
    c.(postActivate := c.postActivate.Canon(), preDeactivate := c.preDeactivate.Canon())
  }

  function CanonTarget(t: TargetOptions): TargetOptions {
    t.(cmdLines := CanonCmdLines(t.cmdLines),
       variableOverride := t.variableOverride.Canon(),
       storageLabels := t.storageLabels.Canon())
  }

  function CanonClientCmdLines(c: ClientCmdLines): ClientCmdLines {
    ClientCmdLines(
      c.mountRabbit, c.rabbitPostSetup.Canon(), c.rabbitPreTeardown.Canon(), c.rabbitPostTeardown.Canon(),
      c.mountCompute, c.unmountRabbit, c.unmountCompute,
      c.rabbitPreMount.Canon(), c.rabbitPostMount.Canon(), c.rabbitPreUnmount.Canon(), c.rabbitPostUnmount.Canon(),
      c.computePreMount.Canon(), c.computePostMount.Canon(), c.computePreUnmount.Canon(), c.computePostUnmount.Canon())
  }

  function CanonLustre(l: LustreData): LustreData {
    LustreData(
      l.combinedMGTMDT,
      l.mgtOptions.(
        target := CanonTarget(l.mgtOptions.target), preMountCommands := l.mgtOptions.preMountCommands.Canon()),
      l.mdtOptions.(target := CanonTarget(l.mdtOptions.target)),
      l.mgtMdtOptions.(target := CanonTarget(l.mgtMdtOptions.target)),
      l.ostOptions.(target := CanonTarget(l.ostOptions.target)),
      ClientOptions(CanonClientCmdLines(l.clientOptions.cmdLines), l.clientOptions.variableOverride.Canon()))
  }

  function CanonShared(d: SharedData): SharedData {
    var rabbit, compute := d.fileSystemCommands.rabbitCommands, d.fileSystemCommands.computeCommands;
    d.(fileSystemCommands := FileSystem(rabbit.(userCommands := CanonFsUser(rabbit.userCommands)),
                                        compute.(userCommands := CanonFsUser(compute.userCommands))),
       blockDeviceCommands := CanonBlock(d.blockDeviceCommands),
       userCommands := UserCommands(
         d.userCommands.postActivate.Canon(), d.userCommands.preDeactivate.Canon(), d.userCommands.postSetup.Canon(),
         d.userCommands.preTeardown.Canon(), d.userCommands.postTeardown.Canon()),
       storageLabels := d.storageLabels.Canon(),
       variableOverride := d.variableOverride.Canon())
  }

  /** The data as another reader gets it from JSON: every empty slice or map has become nil. */
  function Canon(d: ProfileData): ProfileData {
    d.(lustreStorage := CanonLustre(d.lustreStorage), gfs2Storage := CanonShared(d.gfs2Storage),
       xfsStorage := CanonShared(d.xfsStorage), rawStorage := CanonShared(d.rawStorage))
  }

  // ---------- Zero values ----------

  const ZERO_TARGET := TargetOptions(CmdLines("", "", "", "", "", "", Nil, Nil), NilMap, false, 0, 0, Nil)

  const ZERO_LUSTRE := LustreData(
    false, MgtOptions("", "", "", ZERO_TARGET, Nil), MdtOptions("", false, ZERO_TARGET), MgtMdtOptions("", ZERO_TARGET),
    OstOptions("", ZERO_TARGET),
    ClientOptions(ClientCmdLines("", Nil, Nil, Nil, "", "", "", Nil, Nil, Nil, Nil, Nil, Nil, Nil, Nil), NilMap))

  const ZERO_SHARED := SharedData(
    FileSystem(RabbitFileSystem("", "", "", ZERO_FS_USER), ComputeFileSystem("", "", ZERO_FS_USER)), ZERO_BLOCK,
    UserCommands(Nil, Nil, Nil, Nil, Nil), false, Nil, "", "", NilMap)

  const ZERO := ProfileData(false, false, ZERO_LUSTRE, ZERO_SHARED, ZERO_SHARED, ZERO_SHARED)
}

/** The storage profile of v1alpha10: two fields short of the hub. */
module StorageV10 {
  import opened GoValues
  import opened StorageShapes
  import V11 = StorageV11

  datatype ClientCmdLines = ClientCmdLines(
    mountRabbit: string, rabbitPostSetup: Strings, rabbitPreTeardown: Strings,
    mountCompute: string, unmountRabbit: string, unmountCompute: string,
    rabbitPreMount: Strings, rabbitPostMount: Strings, rabbitPreUnmount: Strings, rabbitPostUnmount: Strings,
    computePreMount: Strings, computePostMount: Strings, computePreUnmount: Strings, computePostUnmount: Strings)

  datatype ClientOptions = ClientOptions(cmdLines: ClientCmdLines, variableOverride: StringMap)

  datatype LustreData = LustreData(
    combinedMGTMDT: bool, mgtOptions: V11.MgtOptions, mdtOptions: V11.MdtOptions, mgtMdtOptions: V11.MgtMdtOptions,
    ostOptions: V11.OstOptions, clientOptions: ClientOptions)

  datatype UserCommands = UserCommands(
    postActivate: Strings, preDeactivate: Strings, postSetup: Strings, preTeardown: Strings)

  datatype SharedData = SharedData(
    fileSystemCommands: V11.FileSystem, blockDeviceCommands: BlockDevice, userCommands: UserCommands,
    sharedAllocation: bool, storageLabels: Strings, capacityScalingFactor: string, allocationPadding: string,
    variableOverride: StringMap)

  datatype ProfileData = ProfileData(
    isDefault: bool, pinned: bool, lustreStorage: LustreData, gfs2Storage: SharedData, xfsStorage: SharedData,
    rawStorage: SharedData)
}

/** The storage profile of v1alpha9: a flat Lustre section, and no unmount, destroy or override fields. */
module StorageV9 {
  import opened GoValues
  import opened StorageShapes
  import V10 = StorageV10

  datatype CmdLines = CmdLines(
    zpoolCreate: string, zpoolReplace: string, mkfs: string, mountTarget: string,
    postActivate: Strings, preDeactivate: Strings)

  datatype MiscOptions = MiscOptions(colocateComputes: bool, count: int, scale: int, storageLabels: Strings)

  datatype ClientCmdLines = ClientCmdLines(
    mountRabbit: string, rabbitPostSetup: Strings, rabbitPreTeardown: Strings, mountCompute: string,
    rabbitPreMount: Strings, rabbitPostMount: Strings, rabbitPreUnmount: Strings, rabbitPostUnmount: Strings,
    computePreMount: Strings, computePostMount: Strings, computePreUnmount: Strings, computePostUnmount: Strings)

  datatype LustreData = LustreData(
    combinedMGTMDT: bool, externalMGS: string, capacityMGT: string, capacityMDT: string, exclusiveMDT: bool,
    capacityScalingFactor: string, standaloneMGTPoolName: string,
    mgtCmdLines: CmdLines, mdtCmdLines: CmdLines, mgtMdtCmdLines: CmdLines, ostCmdLines: CmdLines,
    mgtOptions: MiscOptions, mdtOptions: MiscOptions, mgtMdtOptions: MiscOptions, ostOptions: MiscOptions,
    clientCmdLines: ClientCmdLines, preMountMGTCmds: Strings)

  datatype RabbitFileSystem = RabbitFileSystem(mkfs: string, mount: string, userCommands: FileSystemUserCommands)

  datatype ComputeFileSystem = ComputeFileSystem(mount: string, userCommands: FileSystemUserCommands)

  datatype FileSystem = FileSystem(rabbitCommands: RabbitFileSystem, computeCommands: ComputeFileSystem)

  datatype SharedData = SharedData(
    fileSystemCommands: FileSystem, blockDeviceCommands: BlockDevice, userCommands: V10.UserCommands,
    sharedAllocation: bool, storageLabels: Strings, capacityScalingFactor: string, allocationPadding: string)

  datatype ProfileData = ProfileData(
    isDefault: bool, pinned: bool, lustreStorage: LustreData, gfs2Storage: SharedData, xfsStorage: SharedData,
    rawStorage: SharedData)

  const ZERO_CMD_LINES := CmdLines("", "", "", "", Nil, Nil)
  const ZERO_MISC := MiscOptions(false, 0, 0, Nil)
  const ZERO_LUSTRE := LustreData(
    false, "", "", "", false, "", "", ZERO_CMD_LINES, ZERO_CMD_LINES, ZERO_CMD_LINES, ZERO_CMD_LINES,
    ZERO_MISC, ZERO_MISC, ZERO_MISC, ZERO_MISC,
    ClientCmdLines("", Nil, Nil, "", Nil, Nil, Nil, Nil, Nil, Nil, Nil, Nil), Nil)
}
