/** The fields of a storage profile by the names all three versions give them. */
module StorageNames {
  import opened GoValues
  import opened StorageShapes
  import V9 = StorageV9
  import V10 = StorageV10
  import V11 = StorageV11

  datatype LustreField =
    | CombinedMGTMDT | ExternalMGS | StandaloneMGTPoolName | CapacityMGT | PreMountMGTCmds
    | CapacityMDT | ExclusiveMDT | CapacityMGTMDT | CapacityScalingFactor

  datatype Target = Mgt | Mdt | MgtMdt | Ost

  datatype TargetField =
    | ZpoolCreate | ZpoolDestroy | ZpoolReplace | Mkfs | MountTarget
    | UnmountTarget | PostActivate | PreDeactivate | VariableOverride | ColocateComputes
    | Count | Scale | StorageLabels

  datatype ClientField =
    | MountRabbit | MountCompute | UnmountRabbit | UnmountCompute
    | RabbitPostSetup | RabbitPreTeardown | RabbitPostTeardown | RabbitPreMount
    | RabbitPostMount | RabbitPreUnmount | RabbitPostUnmount | ComputePreMount
    | ComputePostMount | ComputePreUnmount | ComputePostUnmount

  datatype Section = Gfs2 | Xfs | Raw

  /** The fields of the section of one simple file system. */
  datatype SectionField =
    | RabbitMkfs | RabbitMount | RabbitUnmount | RabbitFsCommands
    | ComputeMount | ComputeUnmount | ComputeFsCommands | BlockDeviceCommands
    | UserPostActivate | UserPreDeactivate | UserPostSetup | UserPreTeardown
    | UserPostTeardown | SharedAllocation | SharedLabels | CapacityScaling
    | AllocationPadding | SharedOverride

  datatype LustreName =
    | OfLustre(l: LustreField) | OfTarget(t: Target, f: TargetField) | OfClient(c: ClientField) | ClientOverride

  datatype Name = IsDefault | Pinned | InLustre(l: LustreName) | InSection(s: Section, d: SectionField)

  datatype Value =
    | Text(text: string) | List(list: Strings) | Flag(flag: bool) | Number(number: int)
    | Overrides(overrides: StringMap) | Device(device: BlockDevice) | FsCommands(commands: FileSystemUserCommands)

  // ---------- Reading by name; None where a version has no such field ----------

  function Lustre11(l: V11.LustreData, x: LustreField): Value {
    match x
    case CombinedMGTMDT => Flag(l.combinedMGTMDT)
    case ExternalMGS => Text(l.mgtOptions.externalMGS)
    case StandaloneMGTPoolName => Text(l.mgtOptions.standaloneMGTPoolName)
    case CapacityMGT => Text(l.mgtOptions.capacity)
    case PreMountMGTCmds => List(l.mgtOptions.preMountCommands)
    case CapacityMDT => Text(l.mdtOptions.capacity)
    case ExclusiveMDT => Flag(l.mdtOptions.exclusive)
    case CapacityMGTMDT => Text(l.mgtMdtOptions.capacity)
    case CapacityScalingFactor => Text(l.ostOptions.capacityScalingFactor)
  }

  function Lustre10(l: V10.LustreData, x: LustreField): Value {
    match x
    case CombinedMGTMDT => Flag(l.combinedMGTMDT)
    case ExternalMGS => Text(l.mgtOptions.externalMGS)
    case StandaloneMGTPoolName => Text(l.mgtOptions.standaloneMGTPoolName)
    case CapacityMGT => Text(l.mgtOptions.capacity)
    case PreMountMGTCmds => List(l.mgtOptions.preMountCommands)
    case CapacityMDT => Text(l.mdtOptions.capacity)
    case ExclusiveMDT => Flag(l.mdtOptions.exclusive)
    case CapacityMGTMDT => Text(l.mgtMdtOptions.capacity)
    case CapacityScalingFactor => Text(l.ostOptions.capacityScalingFactor)
  }

  function Lustre9(l: V9.LustreData, x: LustreField): Option<Value> {
    match x
    case CombinedMGTMDT => Some(Flag(l.combinedMGTMDT))
    case ExternalMGS => Some(Text(l.externalMGS))
    case StandaloneMGTPoolName => Some(Text(l.standaloneMGTPoolName))
    case CapacityMGT => Some(Text(l.capacityMGT))
    case PreMountMGTCmds => Some(List(l.preMountMGTCmds))
    case CapacityMDT => Some(Text(l.capacityMDT))
    case ExclusiveMDT => Some(Flag(l.exclusiveMDT))
    case CapacityScalingFactor => Some(Text(l.capacityScalingFactor))
    case _ => None
  }

  /** The targets of v1alpha10 are those of the hub. */
  function Target11(t: V11.TargetOptions, x: TargetField): Value {
    match x
    case ZpoolCreate => Text(t.cmdLines.zpoolCreate)
    case ZpoolDestroy => Text(t.cmdLines.zpoolDestroy)
    case ZpoolReplace => Text(t.cmdLines.zpoolReplace)
    case Mkfs => Text(t.cmdLines.mkfs)
    case MountTarget => Text(t.cmdLines.mountTarget)
    case UnmountTarget => Text(t.cmdLines.unmountTarget)
    case PostActivate => List(t.cmdLines.postActivate)
    case PreDeactivate => List(t.cmdLines.preDeactivate)
    case VariableOverride => Overrides(t.variableOverride)
    case ColocateComputes => Flag(t.colocateComputes)
    case Count => Number(t.count)
    case Scale => Number(t.scale)
    case StorageLabels => List(t.storageLabels)
  }

  function Target9(c: V9.CmdLines, m: V9.MiscOptions, x: TargetField): Option<Value> {
    match x
    case ZpoolCreate => Some(Text(c.zpoolCreate))
    case ZpoolReplace => Some(Text(c.zpoolReplace))
    case Mkfs => Some(Text(c.mkfs))
    case MountTarget => Some(Text(c.mountTarget))
    case PostActivate => Some(List(c.postActivate))
    case PreDeactivate => Some(List(c.preDeactivate))
    case ColocateComputes => Some(Flag(m.colocateComputes))
    case Count => Some(Number(m.count))
    case Scale => Some(Number(m.scale))
    case StorageLabels => Some(List(m.storageLabels))
    case _ => None
  }

  function Client11(c: V11.ClientCmdLines, x: ClientField): Value {
    match x
    case MountRabbit => Text(c.mountRabbit)
    case MountCompute => Text(c.mountCompute)
    case UnmountRabbit => Text(c.unmountRabbit)
    case UnmountCompute => Text(c.unmountCompute)
    case RabbitPostSetup => List(c.rabbitPostSetup)
    case RabbitPreTeardown => List(c.rabbitPreTeardown)
    case RabbitPostTeardown => List(c.rabbitPostTeardown)
    case RabbitPreMount => List(c.rabbitPreMount)
    case RabbitPostMount => List(c.rabbitPostMount)
    case RabbitPreUnmount => List(c.rabbitPreUnmount)
    case RabbitPostUnmount => List(c.rabbitPostUnmount)
    case ComputePreMount => List(c.computePreMount)
    case ComputePostMount => List(c.computePostMount)
    case ComputePreUnmount => List(c.computePreUnmount)
    case ComputePostUnmount => List(c.computePostUnmount)
  }

  function Client10(c: V10.ClientCmdLines, x: ClientField): Option<Value> {
    match x
    case MountRabbit => Some(Text(c.mountRabbit))
    case MountCompute => Some(Text(c.mountCompute))
    case UnmountRabbit => Some(Text(c.unmountRabbit))
    case UnmountCompute => Some(Text(c.unmountCompute))
    case RabbitPostSetup => Some(List(c.rabbitPostSetup))
    case RabbitPreTeardown => Some(List(c.rabbitPreTeardown))
    case RabbitPreMount => Some(List(c.rabbitPreMount))
    case RabbitPostMount => Some(List(c.rabbitPostMount))
    case RabbitPreUnmount => Some(List(c.rabbitPreUnmount))
    case RabbitPostUnmount => Some(List(c.rabbitPostUnmount))
    case ComputePreMount => Some(List(c.computePreMount))
    case ComputePostMount => Some(List(c.computePostMount))
    case ComputePreUnmount => Some(List(c.computePreUnmount))
    case ComputePostUnmount => Some(List(c.computePostUnmount))
    case _ => None
  }

  function Client9(c: V9.ClientCmdLines, x: ClientField): Option<Value> {
    match x
    case MountRabbit => Some(Text(c.mountRabbit))
    case MountCompute => Some(Text(c.mountCompute))
    case RabbitPostSetup => Some(List(c.rabbitPostSetup))
    case RabbitPreTeardown => Some(List(c.rabbitPreTeardown))
    case RabbitPreMount => Some(List(c.rabbitPreMount))
    case RabbitPostMount => Some(List(c.rabbitPostMount))
    case RabbitPreUnmount => Some(List(c.rabbitPreUnmount))
    case RabbitPostUnmount => Some(List(c.rabbitPostUnmount))
    case ComputePreMount => Some(List(c.computePreMount))
    case ComputePostMount => Some(List(c.computePostMount))
    case ComputePreUnmount => Some(List(c.computePreUnmount))
    case ComputePostUnmount => Some(List(c.computePostUnmount))
    case _ => None
  }

  function Section11(d: V11.SharedData, x: SectionField): Value {
    match x
    case RabbitMkfs => Text(d.fileSystemCommands.rabbitCommands.mkfs)
    case RabbitMount => Text(d.fileSystemCommands.rabbitCommands.mount)
    case RabbitUnmount => Text(d.fileSystemCommands.rabbitCommands.unmount)
    case RabbitFsCommands => FsCommands(d.fileSystemCommands.rabbitCommands.userCommands)
    case ComputeMount => Text(d.fileSystemCommands.computeCommands.mount)
    case ComputeUnmount => Text(d.fileSystemCommands.computeCommands.unmount)
    case ComputeFsCommands => FsCommands(d.fileSystemCommands.computeCommands.userCommands)
    case BlockDeviceCommands => Device(d.blockDeviceCommands)
    case UserPostActivate => List(d.userCommands.postActivate)
    case UserPreDeactivate => List(d.userCommands.preDeactivate)
    case UserPostSetup => List(d.userCommands.postSetup)
    case UserPreTeardown => List(d.userCommands.preTeardown)
    case UserPostTeardown => List(d.userCommands.postTeardown)
    case SharedAllocation => Flag(d.sharedAllocation)
    case SharedLabels => List(d.storageLabels)
    case CapacityScaling => Text(d.capacityScalingFactor)
    case AllocationPadding => Text(d.allocationPadding)
    case SharedOverride => Overrides(d.variableOverride)
  }

  function Section10(d: V10.SharedData, x: SectionField): Option<Value> {
    match x
    case RabbitMkfs => Some(Text(d.fileSystemCommands.rabbitCommands.mkfs))
    case RabbitMount => Some(Text(d.fileSystemCommands.rabbitCommands.mount))
    case RabbitUnmount => Some(Text(d.fileSystemCommands.rabbitCommands.unmount))
    case RabbitFsCommands => Some(FsCommands(d.fileSystemCommands.rabbitCommands.userCommands))
    case ComputeMount => Some(Text(d.fileSystemCommands.computeCommands.mount))
    case ComputeUnmount => Some(Text(d.fileSystemCommands.computeCommands.unmount))
    case ComputeFsCommands => Some(FsCommands(d.fileSystemCommands.computeCommands.userCommands))
    case BlockDeviceCommands => Some(Device(d.blockDeviceCommands))
    case UserPostActivate => Some(List(d.userCommands.postActivate))
    case UserPreDeactivate => Some(List(d.userCommands.preDeactivate))
    case UserPostSetup => Some(List(d.userCommands.postSetup))
    case UserPreTeardown => Some(List(d.userCommands.preTeardown))
    case SharedAllocation => Some(Flag(d.sharedAllocation))
    case SharedLabels => Some(List(d.storageLabels))
    case CapacityScaling => Some(Text(d.capacityScalingFactor))
    case AllocationPadding => Some(Text(d.allocationPadding))
    case SharedOverride => Some(Overrides(d.variableOverride))
    case _ => None
  }

  function Section9(d: V9.SharedData, x: SectionField): Option<Value> {
    match x
    case RabbitMkfs => Some(Text(d.fileSystemCommands.rabbitCommands.mkfs))
    case RabbitMount => Some(Text(d.fileSystemCommands.rabbitCommands.mount))
    case RabbitFsCommands => Some(FsCommands(d.fileSystemCommands.rabbitCommands.userCommands))
    case ComputeMount => Some(Text(d.fileSystemCommands.computeCommands.mount))
    case ComputeFsCommands => Some(FsCommands(d.fileSystemCommands.computeCommands.userCommands))
    case BlockDeviceCommands => Some(Device(d.blockDeviceCommands))
    case UserPostActivate => Some(List(d.userCommands.postActivate))
    case UserPreDeactivate => Some(List(d.userCommands.preDeactivate))
    case UserPostSetup => Some(List(d.userCommands.postSetup))
    case UserPreTeardown => Some(List(d.userCommands.preTeardown))
    case SharedAllocation => Some(Flag(d.sharedAllocation))
    case SharedLabels => Some(List(d.storageLabels))
    case CapacityScaling => Some(Text(d.capacityScalingFactor))
    case AllocationPadding => Some(Text(d.allocationPadding))
    case _ => None
  }

  function ReadLustre11(l: V11.LustreData, n: LustreName): Value {
    match n
    case OfLustre(x) => Lustre11(l, x)
    case OfTarget(Mgt, x) => Target11(l.mgtOptions.target, x)
    case OfTarget(Mdt, x) => Target11(l.mdtOptions.target, x)
    case OfTarget(MgtMdt, x) => Target11(l.mgtMdtOptions.target, x)
    case OfTarget(Ost, x) => Target11(l.ostOptions.target, x)
    case OfClient(x) => Client11(l.clientOptions.cmdLines, x)
    case ClientOverride => Overrides(l.clientOptions.variableOverride)
  }

  function Read11(p: V11.ProfileData, n: Name): Value {
    match n
    case IsDefault => Flag(p.isDefault)
    case Pinned => Flag(p.pinned)
    case InLustre(x) => ReadLustre11(p.lustreStorage, x)
    case InSection(Gfs2, x) => Section11(p.gfs2Storage, x)
    case InSection(Xfs, x) => Section11(p.xfsStorage, x)
    case InSection(Raw, x) => Section11(p.rawStorage, x)
  }

  function ReadLustre10(l: V10.LustreData, n: LustreName): Option<Value> {
    match n
    case OfLustre(x) => Some(Lustre10(l, x))
    case OfTarget(Mgt, x) => Some(Target11(l.mgtOptions.target, x))
    case OfTarget(Mdt, x) => Some(Target11(l.mdtOptions.target, x))
    case OfTarget(MgtMdt, x) => Some(Target11(l.mgtMdtOptions.target, x))
    case OfTarget(Ost, x) => Some(Target11(l.ostOptions.target, x))
    case OfClient(x) => Client10(l.clientOptions.cmdLines, x)
    case ClientOverride => Some(Overrides(l.clientOptions.variableOverride))
  }

  function Read10(p: V10.ProfileData, n: Name): Option<Value> {
    match n
    case IsDefault => Some(Flag(p.isDefault))
    case Pinned => Some(Flag(p.pinned))
    case InLustre(x) => ReadLustre10(p.lustreStorage, x)
    case InSection(Gfs2, x) => Section10(p.gfs2Storage, x)
    case InSection(Xfs, x) => Section10(p.xfsStorage, x)
    case InSection(Raw, x) => Section10(p.rawStorage, x)
  }

  function ReadLustre9(l: V9.LustreData, n: LustreName): Option<Value> {
    match n
    case OfLustre(x) => Lustre9(l, x)
    case OfTarget(Mgt, x) => Target9(l.mgtCmdLines, l.mgtOptions, x)
    case OfTarget(Mdt, x) => Target9(l.mdtCmdLines, l.mdtOptions, x)
    case OfTarget(MgtMdt, x) => Target9(l.mgtMdtCmdLines, l.mgtMdtOptions, x)
    case OfTarget(Ost, x) => Target9(l.ostCmdLines, l.ostOptions, x)
    case OfClient(x) => Client9(l.clientCmdLines, x)
    case ClientOverride => None
  }

  function Read9(p: V9.ProfileData, n: Name): Option<Value> {
    match n
    case IsDefault => Some(Flag(p.isDefault))
    case Pinned => Some(Flag(p.pinned))
    case InLustre(x) => ReadLustre9(p.lustreStorage, x)
    case InSection(Gfs2, x) => Section9(p.gfs2Storage, x)
    case InSection(Xfs, x) => Section9(p.xfsStorage, x)
    case InSection(Raw, x) => Section9(p.rawStorage, x)
  }

  // ---------- The names cover everything ----------

  lemma TargetNamesCover(a: V11.TargetOptions, b: V11.TargetOptions)
    requires forall x :: Target11(a, x) == Target11(b, x)
    ensures a == b
  {
    assert Target11(a, ZpoolCreate) == Target11(b, ZpoolCreate);
    assert Target11(a, ZpoolDestroy) == Target11(b, ZpoolDestroy);
    assert Target11(a, ZpoolReplace) == Target11(b, ZpoolReplace);
    assert Target11(a, Mkfs) == Target11(b, Mkfs);
    assert Target11(a, MountTarget) == Target11(b, MountTarget);
    assert Target11(a, UnmountTarget) == Target11(b, UnmountTarget);
    assert Target11(a, PostActivate) == Target11(b, PostActivate);
    assert Target11(a, PreDeactivate) == Target11(b, PreDeactivate);
    assert Target11(a, VariableOverride) == Target11(b, VariableOverride);
    assert Target11(a, ColocateComputes) == Target11(b, ColocateComputes);
    assert Target11(a, Count) == Target11(b, Count);
    assert Target11(a, Scale) == Target11(b, Scale);
    assert Target11(a, StorageLabels) == Target11(b, StorageLabels);
  }

  lemma TargetNamesCover9(c: V9.CmdLines, m: V9.MiscOptions, d: V9.CmdLines, n: V9.MiscOptions)
    requires forall x :: Target9(c, m, x) == Target9(d, n, x)
    ensures c == d && m == n
  {
    assert Target9(c, m, ZpoolCreate) == Target9(d, n, ZpoolCreate);
    assert Target9(c, m, ZpoolReplace) == Target9(d, n, ZpoolReplace);
    assert Target9(c, m, Mkfs) == Target9(d, n, Mkfs);
    assert Target9(c, m, MountTarget) == Target9(d, n, MountTarget);
    assert Target9(c, m, PostActivate) == Target9(d, n, PostActivate);
    assert Target9(c, m, PreDeactivate) == Target9(d, n, PreDeactivate);
    assert Target9(c, m, ColocateComputes) == Target9(d, n, ColocateComputes);
    assert Target9(c, m, Count) == Target9(d, n, Count);
    assert Target9(c, m, Scale) == Target9(d, n, Scale);
    assert Target9(c, m, StorageLabels) == Target9(d, n, StorageLabels);
  }

  lemma ClientNamesCover(a: V11.ClientCmdLines, b: V11.ClientCmdLines)
    requires forall x :: Client11(a, x) == Client11(b, x)
    ensures a == b
  {
    assert Client11(a, MountRabbit) == Client11(b, MountRabbit);
    assert Client11(a, MountCompute) == Client11(b, MountCompute);
    assert Client11(a, UnmountRabbit) == Client11(b, UnmountRabbit);
    assert Client11(a, UnmountCompute) == Client11(b, UnmountCompute);
    assert Client11(a, RabbitPostSetup) == Client11(b, RabbitPostSetup);
    assert Client11(a, RabbitPreTeardown) == Client11(b, RabbitPreTeardown);
    assert Client11(a, RabbitPostTeardown) == Client11(b, RabbitPostTeardown);
    assert Client11(a, RabbitPreMount) == Client11(b, RabbitPreMount);
    assert Client11(a, RabbitPostMount) == Client11(b, RabbitPostMount);
    assert Client11(a, RabbitPreUnmount) == Client11(b, RabbitPreUnmount);
    assert Client11(a, RabbitPostUnmount) == Client11(b, RabbitPostUnmount);
    assert Client11(a, ComputePreMount) == Client11(b, ComputePreMount);
    assert Client11(a, ComputePostMount) == Client11(b, ComputePostMount);
    assert Client11(a, ComputePreUnmount) == Client11(b, ComputePreUnmount);
    assert Client11(a, ComputePostUnmount) == Client11(b, ComputePostUnmount);
  }

  lemma ClientNamesCover10(a: V10.ClientCmdLines, b: V10.ClientCmdLines)
    requires forall x :: Client10(a, x) == Client10(b, x)
    ensures a == b
  {
    assert Client10(a, MountRabbit) == Client10(b, MountRabbit);
    assert Client10(a, MountCompute) == Client10(b, MountCompute);
    assert Client10(a, UnmountRabbit) == Client10(b, UnmountRabbit);
    assert Client10(a, UnmountCompute) == Client10(b, UnmountCompute);
    assert Client10(a, RabbitPostSetup) == Client10(b, RabbitPostSetup);
    assert Client10(a, RabbitPreTeardown) == Client10(b, RabbitPreTeardown);
    assert Client10(a, RabbitPreMount) == Client10(b, RabbitPreMount);
    assert Client10(a, RabbitPostMount) == Client10(b, RabbitPostMount);
    assert Client10(a, RabbitPreUnmount) == Client10(b, RabbitPreUnmount);
    assert Client10(a, RabbitPostUnmount) == Client10(b, RabbitPostUnmount);
    assert Client10(a, ComputePreMount) == Client10(b, ComputePreMount);
    assert Client10(a, ComputePostMount) == Client10(b, ComputePostMount);
    assert Client10(a, ComputePreUnmount) == Client10(b, ComputePreUnmount);
    assert Client10(a, ComputePostUnmount) == Client10(b, ComputePostUnmount);
  }

  lemma ClientNamesCover9(a: V9.ClientCmdLines, b: V9.ClientCmdLines)
    requires forall x :: Client9(a, x) == Client9(b, x)
    ensures a == b
  {
    assert Client9(a, MountRabbit) == Client9(b, MountRabbit);
    assert Client9(a, MountCompute) == Client9(b, MountCompute);
    assert Client9(a, RabbitPostSetup) == Client9(b, RabbitPostSetup);
    assert Client9(a, RabbitPreTeardown) == Client9(b, RabbitPreTeardown);
    assert Client9(a, RabbitPreMount) == Client9(b, RabbitPreMount);
    assert Client9(a, RabbitPostMount) == Client9(b, RabbitPostMount);
    assert Client9(a, RabbitPreUnmount) == Client9(b, RabbitPreUnmount);
    assert Client9(a, RabbitPostUnmount) == Client9(b, RabbitPostUnmount);
    assert Client9(a, ComputePreMount) == Client9(b, ComputePreMount);
    assert Client9(a, ComputePostMount) == Client9(b, ComputePostMount);
    assert Client9(a, ComputePreUnmount) == Client9(b, ComputePreUnmount);
    assert Client9(a, ComputePostUnmount) == Client9(b, ComputePostUnmount);
  }

  lemma SectionNamesCover(a: V11.SharedData, b: V11.SharedData)
    requires forall x :: Section11(a, x) == Section11(b, x)
    ensures a == b
  {
    assert Section11(a, RabbitMkfs) == Section11(b, RabbitMkfs);
    assert Section11(a, RabbitMount) == Section11(b, RabbitMount);
    assert Section11(a, RabbitUnmount) == Section11(b, RabbitUnmount);
    assert Section11(a, RabbitFsCommands) == Section11(b, RabbitFsCommands);
    assert Section11(a, ComputeMount) == Section11(b, ComputeMount);
    assert Section11(a, ComputeUnmount) == Section11(b, ComputeUnmount);
    assert Section11(a, ComputeFsCommands) == Section11(b, ComputeFsCommands);
    assert Section11(a, BlockDeviceCommands) == Section11(b, BlockDeviceCommands);
    assert Section11(a, UserPostActivate) == Section11(b, UserPostActivate);
    assert Section11(a, UserPreDeactivate) == Section11(b, UserPreDeactivate);
    assert Section11(a, UserPostSetup) == Section11(b, UserPostSetup);
    assert Section11(a, UserPreTeardown) == Section11(b, UserPreTeardown);
    assert Section11(a, UserPostTeardown) == Section11(b, UserPostTeardown);
    assert Section11(a, SharedAllocation) == Section11(b, SharedAllocation);
    assert Section11(a, SharedLabels) == Section11(b, SharedLabels);
    assert Section11(a, CapacityScaling) == Section11(b, CapacityScaling);
    assert Section11(a, AllocationPadding) == Section11(b, AllocationPadding);
    assert Section11(a, SharedOverride) == Section11(b, SharedOverride);
    assert a.fileSystemCommands.rabbitCommands == b.fileSystemCommands.rabbitCommands;
    assert a.fileSystemCommands.computeCommands == b.fileSystemCommands.computeCommands;
    assert a.userCommands == b.userCommands;
  }

  lemma SectionNamesCover10(a: V10.SharedData, b: V10.SharedData)
    requires forall x :: Section10(a, x) == Section10(b, x)
    ensures a == b
  {
    assert Section10(a, RabbitMkfs) == Section10(b, RabbitMkfs);
    assert Section10(a, RabbitMount) == Section10(b, RabbitMount);
    assert Section10(a, RabbitUnmount) == Section10(b, RabbitUnmount);
    assert Section10(a, RabbitFsCommands) == Section10(b, RabbitFsCommands);
    assert Section10(a, ComputeMount) == Section10(b, ComputeMount);
    assert Section10(a, ComputeUnmount) == Section10(b, ComputeUnmount);
    assert Section10(a, ComputeFsCommands) == Section10(b, ComputeFsCommands);
    assert Section10(a, BlockDeviceCommands) == Section10(b, BlockDeviceCommands);
    assert Section10(a, UserPostActivate) == Section10(b, UserPostActivate);
    assert Section10(a, UserPreDeactivate) == Section10(b, UserPreDeactivate);
    assert Section10(a, UserPostSetup) == Section10(b, UserPostSetup);
    assert Section10(a, UserPreTeardown) == Section10(b, UserPreTeardown);
    assert Section10(a, SharedAllocation) == Section10(b, SharedAllocation);
    assert Section10(a, SharedLabels) == Section10(b, SharedLabels);
    assert Section10(a, CapacityScaling) == Section10(b, CapacityScaling);
    assert Section10(a, AllocationPadding) == Section10(b, AllocationPadding);
    assert Section10(a, SharedOverride) == Section10(b, SharedOverride);
    assert a.fileSystemCommands.rabbitCommands == b.fileSystemCommands.rabbitCommands;
    assert a.fileSystemCommands.computeCommands == b.fileSystemCommands.computeCommands;
    assert a.userCommands == b.userCommands;
  }

  lemma SectionNamesCover9(a: V9.SharedData, b: V9.SharedData)
    requires forall x :: Section9(a, x) == Section9(b, x)
    ensures a == b
  {
    assert Section9(a, RabbitMkfs) == Section9(b, RabbitMkfs);
    assert Section9(a, RabbitMount) == Section9(b, RabbitMount);
    assert Section9(a, RabbitFsCommands) == Section9(b, RabbitFsCommands);
    assert Section9(a, ComputeMount) == Section9(b, ComputeMount);
    assert Section9(a, ComputeFsCommands) == Section9(b, ComputeFsCommands);
    assert Section9(a, BlockDeviceCommands) == Section9(b, BlockDeviceCommands);
    assert Section9(a, UserPostActivate) == Section9(b, UserPostActivate);
    assert Section9(a, UserPreDeactivate) == Section9(b, UserPreDeactivate);
    assert Section9(a, UserPostSetup) == Section9(b, UserPostSetup);
    assert Section9(a, UserPreTeardown) == Section9(b, UserPreTeardown);
    assert Section9(a, SharedAllocation) == Section9(b, SharedAllocation);
    assert Section9(a, SharedLabels) == Section9(b, SharedLabels);
    assert Section9(a, CapacityScaling) == Section9(b, CapacityScaling);
    assert Section9(a, AllocationPadding) == Section9(b, AllocationPadding);
    assert a.fileSystemCommands.rabbitCommands == b.fileSystemCommands.rabbitCommands;
    assert a.fileSystemCommands.computeCommands == b.fileSystemCommands.computeCommands;
    assert a.userCommands == b.userCommands;
  }

  lemma LustreTargetsCover(l: V11.LustreData, k: V11.LustreData)
    requires forall n :: ReadLustre11(l, n) == ReadLustre11(k, n)
    ensures l.mgtOptions.target == k.mgtOptions.target
    ensures l.mdtOptions.target == k.mdtOptions.target
    ensures l.mgtMdtOptions.target == k.mgtMdtOptions.target
    ensures l.ostOptions.target == k.ostOptions.target
  {
    forall x ensures Target11(l.mgtOptions.target, x) == Target11(k.mgtOptions.target, x) {
      assert ReadLustre11(l, OfTarget(Mgt, x)) == ReadLustre11(k, OfTarget(Mgt, x));
    }
    TargetNamesCover(l.mgtOptions.target, k.mgtOptions.target);
    forall x ensures Target11(l.mdtOptions.target, x) == Target11(k.mdtOptions.target, x) {
      assert ReadLustre11(l, OfTarget(Mdt, x)) == ReadLustre11(k, OfTarget(Mdt, x));
    }
    TargetNamesCover(l.mdtOptions.target, k.mdtOptions.target);
    forall x ensures Target11(l.mgtMdtOptions.target, x) == Target11(k.mgtMdtOptions.target, x) {
      assert ReadLustre11(l, OfTarget(MgtMdt, x)) == ReadLustre11(k, OfTarget(MgtMdt, x));
    }
    TargetNamesCover(l.mgtMdtOptions.target, k.mgtMdtOptions.target);
    forall x ensures Target11(l.ostOptions.target, x) == Target11(k.ostOptions.target, x) {
      assert ReadLustre11(l, OfTarget(Ost, x)) == ReadLustre11(k, OfTarget(Ost, x));
    }
    TargetNamesCover(l.ostOptions.target, k.ostOptions.target);
  }

  lemma LustreNamesCover(l: V11.LustreData, k: V11.LustreData)
    requires forall n :: ReadLustre11(l, n) == ReadLustre11(k, n)
    ensures l == k
  {
    LustreTargetsCover(l, k);
    assert ReadLustre11(l, OfLustre(CombinedMGTMDT)) == ReadLustre11(k, OfLustre(CombinedMGTMDT));
    assert ReadLustre11(l, OfLustre(ExternalMGS)) == ReadLustre11(k, OfLustre(ExternalMGS));
    assert ReadLustre11(l, OfLustre(StandaloneMGTPoolName)) == ReadLustre11(k, OfLustre(StandaloneMGTPoolName));
    assert ReadLustre11(l, OfLustre(CapacityMGT)) == ReadLustre11(k, OfLustre(CapacityMGT));
    assert ReadLustre11(l, OfLustre(PreMountMGTCmds)) == ReadLustre11(k, OfLustre(PreMountMGTCmds));
    assert ReadLustre11(l, OfLustre(CapacityMDT)) == ReadLustre11(k, OfLustre(CapacityMDT));
    assert ReadLustre11(l, OfLustre(ExclusiveMDT)) == ReadLustre11(k, OfLustre(ExclusiveMDT));
    assert ReadLustre11(l, OfLustre(CapacityMGTMDT)) == ReadLustre11(k, OfLustre(CapacityMGTMDT));
    assert ReadLustre11(l, OfLustre(CapacityScalingFactor)) == ReadLustre11(k, OfLustre(CapacityScalingFactor));
    forall x ensures Client11(l.clientOptions.cmdLines, x) == Client11(k.clientOptions.cmdLines, x) {
      assert ReadLustre11(l, OfClient(x)) == ReadLustre11(k, OfClient(x));
    }
    ClientNamesCover(l.clientOptions.cmdLines, k.clientOptions.cmdLines);
    assert ReadLustre11(l, ClientOverride) == ReadLustre11(k, ClientOverride);
  }

  /** Equal under every name means equal. */
  lemma NamesCover(a: V11.ProfileData, b: V11.ProfileData)
    requires forall n :: Read11(a, n) == Read11(b, n)
    ensures a == b
  {
    assert Read11(a, IsDefault) == Read11(b, IsDefault) && Read11(a, Pinned) == Read11(b, Pinned);
    forall n ensures ReadLustre11(a.lustreStorage, n) == ReadLustre11(b.lustreStorage, n) {
      assert Read11(a, InLustre(n)) == Read11(b, InLustre(n));
    }
    LustreNamesCover(a.lustreStorage, b.lustreStorage);
    forall x ensures Section11(a.gfs2Storage, x) == Section11(b.gfs2Storage, x) {
      assert Read11(a, InSection(Gfs2, x)) == Read11(b, InSection(Gfs2, x));
    }
    SectionNamesCover(a.gfs2Storage, b.gfs2Storage);
    forall x ensures Section11(a.xfsStorage, x) == Section11(b.xfsStorage, x) {
      assert Read11(a, InSection(Xfs, x)) == Read11(b, InSection(Xfs, x));
    }
    SectionNamesCover(a.xfsStorage, b.xfsStorage);
    forall x ensures Section11(a.rawStorage, x) == Section11(b.rawStorage, x) {
      assert Read11(a, InSection(Raw, x)) == Read11(b, InSection(Raw, x));
    }
    SectionNamesCover(a.rawStorage, b.rawStorage);
  }

  lemma LustreTargetsCover10(l: V10.LustreData, k: V10.LustreData)
    requires forall n :: ReadLustre10(l, n) == ReadLustre10(k, n)
    ensures l.mgtOptions.target == k.mgtOptions.target
    ensures l.mdtOptions.target == k.mdtOptions.target
    ensures l.mgtMdtOptions.target == k.mgtMdtOptions.target
    ensures l.ostOptions.target == k.ostOptions.target
  {
    forall x ensures Target11(l.mgtOptions.target, x) == Target11(k.mgtOptions.target, x) {
      assert ReadLustre10(l, OfTarget(Mgt, x)) == ReadLustre10(k, OfTarget(Mgt, x));
    }
    TargetNamesCover(l.mgtOptions.target, k.mgtOptions.target);
    forall x ensures Target11(l.mdtOptions.target, x) == Target11(k.mdtOptions.target, x) {
      assert ReadLustre10(l, OfTarget(Mdt, x)) == ReadLustre10(k, OfTarget(Mdt, x));
    }
    TargetNamesCover(l.mdtOptions.target, k.mdtOptions.target);
    forall x ensures Target11(l.mgtMdtOptions.target, x) == Target11(k.mgtMdtOptions.target, x) {
      assert ReadLustre10(l, OfTarget(MgtMdt, x)) == ReadLustre10(k, OfTarget(MgtMdt, x));
    }
    TargetNamesCover(l.mgtMdtOptions.target, k.mgtMdtOptions.target);
    forall x ensures Target11(l.ostOptions.target, x) == Target11(k.ostOptions.target, x) {
      assert ReadLustre10(l, OfTarget(Ost, x)) == ReadLustre10(k, OfTarget(Ost, x));
    }
    TargetNamesCover(l.ostOptions.target, k.ostOptions.target);
  }

  lemma LustreNamesCover10(l: V10.LustreData, k: V10.LustreData)
    requires forall n :: ReadLustre10(l, n) == ReadLustre10(k, n)
    ensures l == k
  {
    LustreTargetsCover10(l, k);
    assert ReadLustre10(l, OfLustre(CombinedMGTMDT)) == ReadLustre10(k, OfLustre(CombinedMGTMDT));
    assert ReadLustre10(l, OfLustre(ExternalMGS)) == ReadLustre10(k, OfLustre(ExternalMGS));
    assert ReadLustre10(l, OfLustre(StandaloneMGTPoolName)) == ReadLustre10(k, OfLustre(StandaloneMGTPoolName));
    assert ReadLustre10(l, OfLustre(CapacityMGT)) == ReadLustre10(k, OfLustre(CapacityMGT));
    assert ReadLustre10(l, OfLustre(PreMountMGTCmds)) == ReadLustre10(k, OfLustre(PreMountMGTCmds));
    assert ReadLustre10(l, OfLustre(CapacityMDT)) == ReadLustre10(k, OfLustre(CapacityMDT));
    assert ReadLustre10(l, OfLustre(ExclusiveMDT)) == ReadLustre10(k, OfLustre(ExclusiveMDT));
    assert ReadLustre10(l, OfLustre(CapacityMGTMDT)) == ReadLustre10(k, OfLustre(CapacityMGTMDT));
    assert ReadLustre10(l, OfLustre(CapacityScalingFactor)) == ReadLustre10(k, OfLustre(CapacityScalingFactor));
    forall x ensures Client10(l.clientOptions.cmdLines, x) == Client10(k.clientOptions.cmdLines, x) {
      assert ReadLustre10(l, OfClient(x)) == ReadLustre10(k, OfClient(x));
    }
    ClientNamesCover10(l.clientOptions.cmdLines, k.clientOptions.cmdLines);
    assert ReadLustre10(l, ClientOverride) == ReadLustre10(k, ClientOverride);
  }

  /** Equal under every name means equal. */
  lemma NamesCover10(a: V10.ProfileData, b: V10.ProfileData)
    requires forall n :: Read10(a, n) == Read10(b, n)
    ensures a == b
  {
    assert Read10(a, IsDefault) == Read10(b, IsDefault) && Read10(a, Pinned) == Read10(b, Pinned);
    forall n ensures ReadLustre10(a.lustreStorage, n) == ReadLustre10(b.lustreStorage, n) {
      assert Read10(a, InLustre(n)) == Read10(b, InLustre(n));
    }
    LustreNamesCover10(a.lustreStorage, b.lustreStorage);
    forall x ensures Section10(a.gfs2Storage, x) == Section10(b.gfs2Storage, x) {
      assert Read10(a, InSection(Gfs2, x)) == Read10(b, InSection(Gfs2, x));
    }
    SectionNamesCover10(a.gfs2Storage, b.gfs2Storage);
    forall x ensures Section10(a.xfsStorage, x) == Section10(b.xfsStorage, x) {
      assert Read10(a, InSection(Xfs, x)) == Read10(b, InSection(Xfs, x));
    }
    SectionNamesCover10(a.xfsStorage, b.xfsStorage);
    forall x ensures Section10(a.rawStorage, x) == Section10(b.rawStorage, x) {
      assert Read10(a, InSection(Raw, x)) == Read10(b, InSection(Raw, x));
    }
    SectionNamesCover10(a.rawStorage, b.rawStorage);
  }

  lemma LustreTargetsCover9(l: V9.LustreData, k: V9.LustreData)
    requires forall n :: ReadLustre9(l, n) == ReadLustre9(k, n)
    ensures l.mgtCmdLines == k.mgtCmdLines && l.mgtOptions == k.mgtOptions
    ensures l.mdtCmdLines == k.mdtCmdLines && l.mdtOptions == k.mdtOptions
    ensures l.mgtMdtCmdLines == k.mgtMdtCmdLines && l.mgtMdtOptions == k.mgtMdtOptions
    ensures l.ostCmdLines == k.ostCmdLines && l.ostOptions == k.ostOptions
  {
    forall x ensures Target9(l.mgtCmdLines, l.mgtOptions, x) == Target9(k.mgtCmdLines, k.mgtOptions, x) {
      assert ReadLustre9(l, OfTarget(Mgt, x)) == ReadLustre9(k, OfTarget(Mgt, x));
    }
    TargetNamesCover9(l.mgtCmdLines, l.mgtOptions, k.mgtCmdLines, k.mgtOptions);
    forall x ensures Target9(l.mdtCmdLines, l.mdtOptions, x) == Target9(k.mdtCmdLines, k.mdtOptions, x) {
      assert ReadLustre9(l, OfTarget(Mdt, x)) == ReadLustre9(k, OfTarget(Mdt, x));
    }
    TargetNamesCover9(l.mdtCmdLines, l.mdtOptions, k.mdtCmdLines, k.mdtOptions);
    forall x ensures Target9(l.mgtMdtCmdLines, l.mgtMdtOptions, x) == Target9(k.mgtMdtCmdLines, k.mgtMdtOptions, x) {
      assert ReadLustre9(l, OfTarget(MgtMdt, x)) == ReadLustre9(k, OfTarget(MgtMdt, x));
    }
    TargetNamesCover9(l.mgtMdtCmdLines, l.mgtMdtOptions, k.mgtMdtCmdLines, k.mgtMdtOptions);
    forall x ensures Target9(l.ostCmdLines, l.ostOptions, x) == Target9(k.ostCmdLines, k.ostOptions, x) {
      assert ReadLustre9(l, OfTarget(Ost, x)) == ReadLustre9(k, OfTarget(Ost, x));
    }
    TargetNamesCover9(l.ostCmdLines, l.ostOptions, k.ostCmdLines, k.ostOptions);
  }

  lemma LustreNamesCover9(l: V9.LustreData, k: V9.LustreData)
    requires forall n :: ReadLustre9(l, n) == ReadLustre9(k, n)
    ensures l == k
  {
    LustreTargetsCover9(l, k);
    assert ReadLustre9(l, OfLustre(CombinedMGTMDT)) == ReadLustre9(k, OfLustre(CombinedMGTMDT));
    assert ReadLustre9(l, OfLustre(ExternalMGS)) == ReadLustre9(k, OfLustre(ExternalMGS));
    assert ReadLustre9(l, OfLustre(StandaloneMGTPoolName)) == ReadLustre9(k, OfLustre(StandaloneMGTPoolName));
    assert ReadLustre9(l, OfLustre(CapacityMGT)) == ReadLustre9(k, OfLustre(CapacityMGT));
    assert ReadLustre9(l, OfLustre(PreMountMGTCmds)) == ReadLustre9(k, OfLustre(PreMountMGTCmds));
    assert ReadLustre9(l, OfLustre(CapacityMDT)) == ReadLustre9(k, OfLustre(CapacityMDT));
    assert ReadLustre9(l, OfLustre(ExclusiveMDT)) == ReadLustre9(k, OfLustre(ExclusiveMDT));
    assert ReadLustre9(l, OfLustre(CapacityScalingFactor)) == ReadLustre9(k, OfLustre(CapacityScalingFactor));
    forall x ensures Client9(l.clientCmdLines, x) == Client9(k.clientCmdLines, x) {
      assert ReadLustre9(l, OfClient(x)) == ReadLustre9(k, OfClient(x));
    }
    ClientNamesCover9(l.clientCmdLines, k.clientCmdLines);
  }

  /** Equal under every name means equal. */
  lemma NamesCover9(a: V9.ProfileData, b: V9.ProfileData)
    requires forall n :: Read9(a, n) == Read9(b, n)
    ensures a == b
  {
    assert Read9(a, IsDefault) == Read9(b, IsDefault) && Read9(a, Pinned) == Read9(b, Pinned);
    forall n ensures ReadLustre9(a.lustreStorage, n) == ReadLustre9(b.lustreStorage, n) {
      assert Read9(a, InLustre(n)) == Read9(b, InLustre(n));
    }
    LustreNamesCover9(a.lustreStorage, b.lustreStorage);
    forall x ensures Section9(a.gfs2Storage, x) == Section9(b.gfs2Storage, x) {
      assert Read9(a, InSection(Gfs2, x)) == Read9(b, InSection(Gfs2, x));
    }
    SectionNamesCover9(a.gfs2Storage, b.gfs2Storage);
    forall x ensures Section9(a.xfsStorage, x) == Section9(b.xfsStorage, x) {
      assert Read9(a, InSection(Xfs, x)) == Read9(b, InSection(Xfs, x));
    }
    SectionNamesCover9(a.xfsStorage, b.xfsStorage);
    forall x ensures Section9(a.rawStorage, x) == Section9(b.rawStorage, x) {
      assert Read9(a, InSection(Raw, x)) == Read9(b, InSection(Raw, x));
    }
    SectionNamesCover9(a.rawStorage, b.rawStorage);
  }
}
