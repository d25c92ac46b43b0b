/** Admission of storage profiles. */
module StorageAdmission {
  import opened GoValues
  import opened Admission
  import V11 = StorageV11

  const VALID_KEYS: set<string> := {
    "$FS_NAME", "$MGS_NID", "$INDEX", "$BACKFS", "$POOL_NAME", "$ZPOOL_NAME", "$ZPOOL_DATA_SET", "$ZVOL_NAME",
    "$DEVICE", "$DEVICE_LIST", "$DEVICE_NUM", "$MOUNT_PATH", "$TARGET_TYPE", "$TARGET_PATH", "$VG_NAME", "$LV_NAME",
    "$LV_SIZE", "$LV_INDEX", "$PERCENT_VG", "$FSTYPE", "$MOUNT_TARGET", "$TEMP_DIR", "$JOBID", "$USERID", "$GROUPID",
    "$CLUSTER_NAME", "$LOCK_SPACE", "$PROTOCOL", "$NUM_OSTS", "$NUM_NNFNODES"
  }

  const TARGETS: seq<string> := ["mgt", "mdt", "mgtmdt", "ost"]

  datatype KeyError = EmptyKey | NoDollar(key: string) | UnknownKey(key: string)

  /** The map range visits the keys in no particular order; the answer is the same for all of them. */
  method ValidateVariableOverrideKeys(overrides: StringMap) returns (err: Option<KeyError>)
    ensures err.None? <==> overrides.Keys() <= VALID_KEYS
    ensures err.Some? ==>
      match err.value
      case EmptyKey => "" in overrides.Keys()
      case NoDollar(k) => k in overrides.Keys() && k != "" && k[0] != '$'
      case UnknownKey(k) => k in overrides.Keys() - VALID_KEYS && k != "" && k[0] == '$'
  {
    var rest := overrides.Keys();
    while rest != {}
      invariant rest <= overrides.Keys()
      invariant overrides.Keys() - rest <= VALID_KEYS
    {
      var key :| key in rest;
      if |key| == 0 {
        return Some(EmptyKey);
      }
      if key[0] != '$' {
        return Some(NoDollar(key));
      }
      if key !in VALID_KEYS {
        return Some(UnknownKey(key));
      }
      rest := rest - {key};
    }
    return None;
  }

  /** Panics on any other target name. */
  function GetLustreTargetOptions(d: V11.ProfileData, target: string): V11.TargetOptions
    requires target in TARGETS
  {
    if target == "mgt" then d.lustreStorage.mgtOptions.target
    else if target == "mdt" then d.lustreStorage.mdtOptions.target
    else if target == "mgtmdt" then d.lustreStorage.mgtMdtOptions.target
    else d.lustreStorage.ostOptions.target
  }

  predicate TargetOk(t: V11.TargetOptions) {
    !(t.count > 0 && t.scale > 0) && t.variableOverride.Keys() <= VALID_KEYS
  }

  /** At most one of an external MGS, a standalone MGT pool and a combined MGT and MDT. */
  predicate MgtChoiceOk(l: V11.LustreData) {
    var choices := (if l.combinedMGTMDT then 1 else 0)
      + (if l.mgtOptions.externalMGS != "" then 1 else 0)
      + (if l.mgtOptions.standaloneMGTPoolName != "" then 1 else 0);
    choices <= 1
  }

  predicate LustreOk(l: V11.LustreData) {
    && MgtChoiceOk(l)
    && TargetOk(l.mgtOptions.target) && TargetOk(l.mdtOptions.target)
    && TargetOk(l.mgtMdtOptions.target) && TargetOk(l.ostOptions.target)
    && l.clientOptions.variableOverride.Keys() <= VALID_KEYS
  }

  predicate ContentOk(d: V11.ProfileData) {
    && !(d.isDefault && d.pinned)
    && LustreOk(d.lustreStorage)
    && d.xfsStorage.variableOverride.Keys() + d.gfs2Storage.variableOverride.Keys()
         + d.rawStorage.variableOverride.Keys() <= VALID_KEYS
  }

  method ValidateLustreTargetOptions(t: V11.TargetOptions) returns (ok: bool)
    ensures ok <==> TargetOk(t)
  {
    if t.count > 0 && t.scale > 0 {
      return false;
    }
    var err := ValidateVariableOverrideKeys(t.variableOverride);
    return err.None?;
  }

  method ValidateContentLustre(d: V11.ProfileData) returns (ok: bool)
    ensures ok <==> LustreOk(d.lustreStorage)
  {
    var l := d.lustreStorage;
    if l.combinedMGTMDT && |l.mgtOptions.externalMGS| > 0 {
      return false;
    }
    if |l.mgtOptions.standaloneMGTPoolName| > 0 && |l.mgtOptions.externalMGS| > 0 {
      return false;
    }
    if |l.mgtOptions.standaloneMGTPoolName| > 0 && l.combinedMGTMDT {
      return false;
    }
    for i := 0 to |TARGETS|
      invariant forall j :: 0 <= j < i ==> TargetOk(GetLustreTargetOptions(d, TARGETS[j]))
    {
      ok := ValidateLustreTargetOptions(GetLustreTargetOptions(d, TARGETS[i]));
      if !ok {
        return false;
      }
    }
    assert TargetOk(GetLustreTargetOptions(d, TARGETS[0])) && TargetOk(GetLustreTargetOptions(d, TARGETS[1]));
    assert TargetOk(GetLustreTargetOptions(d, TARGETS[2])) && TargetOk(GetLustreTargetOptions(d, TARGETS[3]));
    var err := ValidateVariableOverrideKeys(l.clientOptions.variableOverride);
    return err.None?;
  }

  method ValidateContentShared(d: V11.ProfileData) returns (ok: bool)
    ensures ok <==>
      d.xfsStorage.variableOverride.Keys() + d.gfs2Storage.variableOverride.Keys()
        + d.rawStorage.variableOverride.Keys() <= VALID_KEYS
  {
    var err := ValidateVariableOverrideKeys(d.xfsStorage.variableOverride);
    if err.Some? {
      return false;
    }
    err := ValidateVariableOverrideKeys(d.gfs2Storage.variableOverride);
    if err.Some? {
      return false;
    }
    err := ValidateVariableOverrideKeys(d.rawStorage.variableOverride);
    return err.None?;
  }

  method ValidateContent(d: V11.ProfileData) returns (ok: bool)
    ensures ok <==> ContentOk(d)
  {
    if d.isDefault && d.pinned {
      return false;
    }
    ok := ValidateContentLustre(d);
    if !ok {
      return false;
    }
    ok := ValidateContentShared(d);
  }

  /** Unlike the other kinds, a pinned storage profile may still be edited. */
  ghost function Rules(): Policy<V11.ProfileData> {
    Policy((d: V11.ProfileData) => d.pinned, (d: V11.ProfileData) => ContentOk(d), false)
  }

  method ValidateCreate(r: Profile<V11.ProfileData>, profileNamespace: string) returns (ok: bool)
    ensures ok <==> AcceptsCreate(Rules(), profileNamespace, r)
  {
    if !r.data.pinned && r.namespace != profileNamespace {
      return false;
    }
    ok := ValidateContent(r.data);
  }

  method ValidateUpdate(stored: V11.ProfileData, r: V11.ProfileData) returns (ok: bool)
    ensures ok <==> AcceptsUpdate(Rules(), stored, r)
  {
    if stored.pinned != r.pinned {
      return false;
    }
    ok := ValidateContent(r);
  }

  /** The two admission rules in full. */
  lemma RulesMean(
      profileNamespace: string, created: Profile<V11.ProfileData>, stored: V11.ProfileData, r: V11.ProfileData)
    ensures AcceptsCreate(Rules(), profileNamespace, created) <==>
      (created.data.pinned || created.namespace == profileNamespace) && ContentOk(created.data)
    ensures AcceptsUpdate(Rules(), stored, r) <==> r.pinned == stored.pinned && ContentOk(r)
  {}

  /** A storage profile keeps its pin and stays valid; a profile created pinned can never become the default. */
  lemma RunKeepsValid(profileNamespace: string, created: Profile<V11.ProfileData>, requests: seq<V11.ProfileData>)
    requires AcceptsCreate(Rules(), profileNamespace, created)
    ensures var now := Run(Rules(), created, requests).data;
      && ContentOk(now)
      && now.pinned == created.data.pinned
      && (created.data.pinned ==> !now.isDefault)
  {
    RunKeeps(Rules(), profileNamespace, created, requests);
  }

  /** Pinned storage data is not frozen: an accepted run that changes it. */
  lemma PinnedStorageCanChange(namespace: string)
    ensures var created := V11.ZERO.(pinned := true);
      var edited := created.(rawStorage := created.rawStorage.(capacityScalingFactor := "2.0"));
      && AcceptsCreate(Rules(), "", Profile(namespace, created))
      && Run(Rules(), Profile(namespace, created), [edited]).data == edited != created
  {
    var created := V11.ZERO.(pinned := true);
    var edited := created.(rawStorage := created.rawStorage.(capacityScalingFactor := "2.0"));
    assert [edited][..0] == [];
    assert Run(Rules(), Profile(namespace, created), [edited][..0]) == Profile(namespace, created);
    assert created.rawStorage.capacityScalingFactor == "";
  }
}
