/** Storage profiles between v1alpha10 and the hub. */
module StorageConversionV10 {
  import opened GoValues
  import opened Annotations
  import V10 = StorageV10
  import V11 = StorageV11

  /** The fields of a hub profile that v1alpha10 has no place for. */
  datatype HubOnly = HubOnly(
    gfs2PostTeardown: Strings, xfsPostTeardown: Strings, rawPostTeardown: Strings, rabbitPostTeardown: Strings)

  function Only(h: V11.ProfileData): HubOnly {
    HubOnly(h.gfs2Storage.userCommands.postTeardown, h.xfsStorage.userCommands.postTeardown,
            h.rawStorage.userCommands.postTeardown, h.lustreStorage.clientOptions.cmdLines.rabbitPostTeardown)
  }

  function JoinClient(c: V10.ClientCmdLines, rabbitPostTeardown: Strings): V11.ClientCmdLines {
    V11.ClientCmdLines(
      c.mountRabbit, c.rabbitPostSetup, c.rabbitPreTeardown, rabbitPostTeardown,
      c.mountCompute, c.unmountRabbit, c.unmountCompute,
      c.rabbitPreMount, c.rabbitPostMount, c.rabbitPreUnmount, c.rabbitPostUnmount,
      c.computePreMount, c.computePostMount, c.computePreUnmount, c.computePostUnmount)
  }

  function JoinUser(u: V10.UserCommands, postTeardown: Strings): V11.UserCommands {
    V11.UserCommands(u.postActivate, u.preDeactivate, u.postSetup, u.preTeardown, postTeardown)
  }

  function JoinShared(d: V10.SharedData, postTeardown: Strings): V11.SharedData {
    V11.SharedData(
      d.fileSystemCommands, d.blockDeviceCommands, JoinUser(d.userCommands, postTeardown), d.sharedAllocation,
      d.storageLabels, d.capacityScalingFactor, d.allocationPadding, d.variableOverride)
  }

  function JoinLustre(l: V10.LustreData, rabbitPostTeardown: Strings): V11.LustreData {
    V11.LustreData(
      l.combinedMGTMDT, l.mgtOptions, l.mdtOptions, l.mgtMdtOptions, l.ostOptions,
      V11.ClientOptions(JoinClient(l.clientOptions.cmdLines, rabbitPostTeardown), l.clientOptions.variableOverride))
  }

  function Join(s: V10.ProfileData, o: HubOnly): V11.ProfileData {
    V11.ProfileData(
      s.isDefault, s.pinned, JoinLustre(s.lustreStorage, o.rabbitPostTeardown),
      JoinShared(s.gfs2Storage, o.gfs2PostTeardown), JoinShared(s.xfsStorage, o.xfsPostTeardown),
      JoinShared(s.rawStorage, o.rawPostTeardown))
  }

  function DownClient(c: V11.ClientCmdLines): V10.ClientCmdLines {
    V10.ClientCmdLines(
      c.mountRabbit, c.rabbitPostSetup, c.rabbitPreTeardown, c.mountCompute, c.unmountRabbit, c.unmountCompute,
      c.rabbitPreMount, c.rabbitPostMount, c.rabbitPreUnmount, c.rabbitPostUnmount,
      c.computePreMount, c.computePostMount, c.computePreUnmount, c.computePostUnmount)
  }

  function DownUser(u: V11.UserCommands): V10.UserCommands {
    V10.UserCommands(u.postActivate, u.preDeactivate, u.postSetup, u.preTeardown)
  }

  function DownShared(d: V11.SharedData): V10.SharedData {
    V10.SharedData(
      d.fileSystemCommands, d.blockDeviceCommands, DownUser(d.userCommands), d.sharedAllocation, d.storageLabels,
      d.capacityScalingFactor, d.allocationPadding, d.variableOverride)
  }

  function DownLustre(l: V11.LustreData): V10.LustreData {
    V10.LustreData(
      l.combinedMGTMDT, l.mgtOptions, l.mdtOptions, l.mgtMdtOptions, l.ostOptions,
      V10.ClientOptions(DownClient(l.clientOptions.cmdLines), l.clientOptions.variableOverride))
  }

  function Down(h: V11.ProfileData): V10.ProfileData {
    V10.ProfileData(
      h.isDefault, h.pinned, DownLustre(h.lustreStorage), DownShared(h.gfs2Storage), DownShared(h.xfsStorage),
      DownShared(h.rawStorage))
  }

  /** What up-conversion builds: the hub-only fields come from the stash or stay as they were in the destination. */
  function Up(s: V10.ProfileData, stash: Option<V11.ProfileData>, dst: V11.ProfileData): V11.ProfileData {
    Join(s, Only(if stash.Some? then stash.value else dst))
  }

  // ---------- Generated conversions and their manual parts ----------

  method ConvertUserTo11(src: V10.UserCommands, out: V11.UserCommands) returns (u: V11.UserCommands)
    ensures u == JoinUser(src, out.postTeardown)
  {
    u := out.(postActivate := src.postActivate);
    u := u.(preDeactivate := src.preDeactivate);
    u := u.(postSetup := src.postSetup);
    u := u.(preTeardown := src.preTeardown);
  }

  method ConvertUserTo10(src: V11.UserCommands, out: V10.UserCommands) returns (u: V10.UserCommands)
    ensures u == DownUser(src)
  {
    u := out.(postActivate := src.postActivate);
    u := u.(preDeactivate := src.preDeactivate);
    u := u.(postSetup := src.postSetup);
    u := u.(preTeardown := src.preTeardown);
  }

  method ConvertClientTo11(src: V10.ClientCmdLines, out: V11.ClientCmdLines) returns (c: V11.ClientCmdLines)
    ensures c == JoinClient(src, out.rabbitPostTeardown)
  {
    c := out.(mountRabbit := src.mountRabbit);
    c := c.(rabbitPostSetup := src.rabbitPostSetup);
    c := c.(rabbitPreTeardown := src.rabbitPreTeardown);
    c := c.(mountCompute := src.mountCompute);
    c := c.(unmountRabbit := src.unmountRabbit);
    c := c.(unmountCompute := src.unmountCompute);
    c := c.(rabbitPreMount := src.rabbitPreMount);
    c := c.(rabbitPostMount := src.rabbitPostMount);
    c := c.(rabbitPreUnmount := src.rabbitPreUnmount);
    c := c.(rabbitPostUnmount := src.rabbitPostUnmount);
    c := c.(computePreMount := src.computePreMount);
    c := c.(computePostMount := src.computePostMount);
    c := c.(computePreUnmount := src.computePreUnmount);
    c := c.(computePostUnmount := src.computePostUnmount);
  }

  method ConvertClientTo10(src: V11.ClientCmdLines, out: V10.ClientCmdLines) returns (c: V10.ClientCmdLines)
    ensures c == DownClient(src)
  {
    c := out.(mountRabbit := src.mountRabbit);
    c := c.(rabbitPostSetup := src.rabbitPostSetup);
    c := c.(rabbitPreTeardown := src.rabbitPreTeardown);
    c := c.(mountCompute := src.mountCompute);
    c := c.(unmountRabbit := src.unmountRabbit);
    c := c.(unmountCompute := src.unmountCompute);
    c := c.(rabbitPreMount := src.rabbitPreMount);
    c := c.(rabbitPostMount := src.rabbitPostMount);
    c := c.(rabbitPreUnmount := src.rabbitPreUnmount);
    c := c.(rabbitPostUnmount := src.rabbitPostUnmount);
    c := c.(computePreMount := src.computePreMount);
    c := c.(computePostMount := src.computePostMount);
    c := c.(computePreUnmount := src.computePreUnmount);
    c := c.(computePostUnmount := src.computePostUnmount);
  }

  method ConvertLustreTo11(src: V10.LustreData, out: V11.LustreData) returns (l: V11.LustreData)
    ensures l == JoinLustre(src, out.clientOptions.cmdLines.rabbitPostTeardown)
  {
    l := out.(combinedMGTMDT := src.combinedMGTMDT);
    l := l.(mgtOptions := src.mgtOptions);
    l := l.(mdtOptions := src.mdtOptions);
    l := l.(mgtMdtOptions := src.mgtMdtOptions);
    l := l.(ostOptions := src.ostOptions);
    var client := ConvertClientTo11(src.clientOptions.cmdLines, l.clientOptions.cmdLines);
    l := l.(clientOptions := l.clientOptions.(cmdLines := client));
    l := l.(clientOptions := l.clientOptions.(variableOverride := src.clientOptions.variableOverride));
  }

  method ConvertLustreTo10(src: V11.LustreData, out: V10.LustreData) returns (l: V10.LustreData)
    ensures l == DownLustre(src)
  {
    l := out.(combinedMGTMDT := src.combinedMGTMDT);
    l := l.(mgtOptions := src.mgtOptions);
    l := l.(mdtOptions := src.mdtOptions);
    l := l.(mgtMdtOptions := src.mgtMdtOptions);
    l := l.(ostOptions := src.ostOptions);
    var client := ConvertClientTo10(src.clientOptions.cmdLines, l.clientOptions.cmdLines);
    l := l.(clientOptions := l.clientOptions.(cmdLines := client));
    l := l.(clientOptions := l.clientOptions.(variableOverride := src.clientOptions.variableOverride));
  }

  method ConvertSharedTo11(src: V10.SharedData, out: V11.SharedData) returns (d: V11.SharedData)
    ensures d == JoinShared(src, out.userCommands.postTeardown)
  {
    d := out.(fileSystemCommands := src.fileSystemCommands);
    d := d.(blockDeviceCommands := src.blockDeviceCommands);
    var user := ConvertUserTo11(src.userCommands, d.userCommands);
    d := d.(userCommands := user);
    d := d.(sharedAllocation := src.sharedAllocation);
    d := d.(storageLabels := src.storageLabels);
    d := d.(capacityScalingFactor := src.capacityScalingFactor);
    d := d.(allocationPadding := src.allocationPadding);
    d := d.(variableOverride := src.variableOverride);
  }

  method ConvertSharedTo10(src: V11.SharedData, out: V10.SharedData) returns (d: V10.SharedData)
    ensures d == DownShared(src)
  {
    d := out.(fileSystemCommands := src.fileSystemCommands);
    d := d.(blockDeviceCommands := src.blockDeviceCommands);
    var user := ConvertUserTo10(src.userCommands, d.userCommands);
    d := d.(userCommands := user);
    d := d.(sharedAllocation := src.sharedAllocation);
    d := d.(storageLabels := src.storageLabels);
    d := d.(capacityScalingFactor := src.capacityScalingFactor);
    d := d.(allocationPadding := src.allocationPadding);
    d := d.(variableOverride := src.variableOverride);
  }

  method ConvertDataTo11(src: V10.ProfileData, out: V11.ProfileData) returns (d: V11.ProfileData)
    ensures d == Up(src, None, out)
  {
    d := out.(isDefault := src.isDefault);
    d := d.(pinned := src.pinned);
    var lustre := ConvertLustreTo11(src.lustreStorage, d.lustreStorage);
    d := d.(lustreStorage := lustre);
    var gfs2 := ConvertSharedTo11(src.gfs2Storage, d.gfs2Storage);
    d := d.(gfs2Storage := gfs2);
    var xfs := ConvertSharedTo11(src.xfsStorage, d.xfsStorage);
    d := d.(xfsStorage := xfs);
    var raw := ConvertSharedTo11(src.rawStorage, d.rawStorage);
    d := d.(rawStorage := raw);
  }

  method ConvertDataTo10(src: V11.ProfileData, out: V10.ProfileData) returns (d: V10.ProfileData)
    ensures d == Down(src)
  {
    d := out.(isDefault := src.isDefault);
    d := d.(pinned := src.pinned);
    var lustre := ConvertLustreTo10(src.lustreStorage, d.lustreStorage);
    d := d.(lustreStorage := lustre);
    var gfs2 := ConvertSharedTo10(src.gfs2Storage, d.gfs2Storage);
    d := d.(gfs2Storage := gfs2);
    var xfs := ConvertSharedTo10(src.xfsStorage, d.xfsStorage);
    d := d.(xfsStorage := xfs);
    var raw := ConvertSharedTo10(src.rawStorage, d.rawStorage);
    d := d.(rawStorage := raw);
  }

  // ---------- The objects ----------

  type Spoke = Object<V10.ProfileData, V11.ProfileData>
  type Hub = Object<V11.ProfileData, V11.ProfileData>

  method Restore(d: V11.ProfileData, r: V11.ProfileData) returns (o: V11.ProfileData)
    ensures o == Join(Down(d), Only(r))
  {
    o := d.(gfs2Storage := d.gfs2Storage.(
      userCommands := d.gfs2Storage.userCommands.(postTeardown := r.gfs2Storage.userCommands.postTeardown)));
    o := o.(xfsStorage := o.xfsStorage.(
      userCommands := o.xfsStorage.userCommands.(postTeardown := r.xfsStorage.userCommands.postTeardown)));
    o := o.(rawStorage := o.rawStorage.(
      userCommands := o.rawStorage.userCommands.(postTeardown := r.rawStorage.userCommands.postTeardown)));
    var client := o.lustreStorage.clientOptions;
    client := client.(cmdLines := client.cmdLines.(
      rabbitPostTeardown := r.lustreStorage.clientOptions.cmdLines.rabbitPostTeardown));
    o := o.(lustreStorage := o.lustreStorage.(clientOptions := client));
  }

  lemma DownAfterUp(s: V10.ProfileData, stash: Option<V11.ProfileData>, dst: V11.ProfileData)
    ensures Down(Up(s, stash, dst)) == s
  {}

  method ConvertTo(src: Spoke, dst: Hub) returns (ok: bool)
    modifies dst, src.annotations
    ensures ok == !old(StashIn(src.annotations)).Malformed?
    ensures src.data == old(src.data) && src.annotations == old(src.annotations)
    ensures dst.name == src.name && dst.namespace == src.namespace && dst.annotations == src.annotations
    ensures dst.data == Up(src.data, StashedData(old(StashIn(src.annotations))), old(dst.data))
    ensures src.annotations != null ==>
      src.annotations.entries ==
        old(src.annotations.entries) - (if ok then {DATA_ANNOTATION} else {})
  {
    CopyMeta(src, dst);
    var data := ConvertDataTo11(src.data, dst.data);
    DownAfterUp(src.data, None, dst.data);
    dst.data := data;

    var stash := UnmarshalData(src);
    if stash.Malformed? {
      return false;
    }
    if stash.Restored? {
      var restored := Restore(dst.data, stash.data);
      dst.data := restored;
    }
    return true;
  }

  method ConvertFrom(dst: Spoke, src: Hub)
    modifies dst, src.annotations
    ensures src.data == old(src.data) && src.annotations == old(src.annotations)
    ensures dst.name == src.name && dst.namespace == src.namespace
    ensures dst.data == Down(src.data)
    ensures StashIn(dst.annotations) == Restored(V11.Canon(src.data))
    ensures src.annotations != null ==> dst.annotations == src.annotations
    ensures src.annotations == null ==> fresh(dst.annotations)
    ensures dst.annotations.entries ==
      (if src.annotations == null then map[] else old(src.annotations.entries))[
        DATA_ANNOTATION := Json(V11.Canon(src.data))]
  {
    CopyMeta(src, dst);
    var data := ConvertDataTo10(src.data, dst.data);
    dst.data := data;
    MarshalData(V11.Canon(src.data), dst);
  }

  // ---------- Laws ----------

  lemma DownAfterJoin(s: V10.ProfileData, o: HubOnly)
    ensures Down(Join(s, o)) == s && Only(Join(s, o)) == o
  {}

  lemma JoinOfParts(h: V11.ProfileData)
    ensures Join(Down(h), Only(h)) == h
  {}

  /** Normalising the hub-only half first does not change what JSON makes of the whole. */
  lemma CanonOfMixed(h: V11.ProfileData)
    ensures V11.Canon(Join(Down(h), Only(V11.Canon(h)))) == V11.Canon(h)
  {
    var c, j := V11.Canon(h), Join(Down(h), Only(V11.Canon(h)));
    assert V11.CanonLustre(j.lustreStorage) == c.lustreStorage;
    assert V11.CanonShared(j.gfs2Storage) == c.gfs2Storage;
    assert V11.CanonShared(j.xfsStorage) == c.xfsStorage;
    assert V11.CanonShared(j.rawStorage) == c.rawStorage;
  }

  /** A hub-only list that is empty without being nil. */
  predicate HasEmptyHubOnly(h: V11.ProfileData) {
    || h.gfs2Storage.userCommands.postTeardown.ExplicitlyEmpty()
    || h.xfsStorage.userCommands.postTeardown.ExplicitlyEmpty()
    || h.rawStorage.userCommands.postTeardown.ExplicitlyEmpty()
    || h.lustreStorage.clientOptions.cmdLines.rabbitPostTeardown.ExplicitlyEmpty()
  }

  /** Hub to v1alpha10 and back, with the stash untouched: the same JSON and the same view, and the same value exactly
      if no hub-only list is empty without being nil. */
  lemma HubRoundTrip(h: V11.ProfileData, dst: V11.ProfileData)
    ensures var back := Up(Down(h), Some(V11.Canon(h)), dst);
      && Down(back) == Down(h)
      && V11.Canon(back) == V11.Canon(h)
      && (back == h <==> !HasEmptyHubOnly(h))
  {
    DownAfterJoin(Down(h), Only(V11.Canon(h)));
    JoinOfParts(h);
    CanonOfMixed(h);
    assert Only(V11.Canon(h)) == Only(h) <==> !HasEmptyHubOnly(h);
  }
}
