/** The variables an override may set, against the places that use them. */
module StorageVariables {
  import opened GoValues
  import opened StorageNames
  import opened StorageAdmission
  import V11 = StorageV11

  // The names substituted in command lines, by the code that supplies their values.
  const LUSTRE: set<string> := {
    "$DEVICE", "$ZVOL_NAME", "$MGS_NID", "$INDEX", "$FS_NAME", "$BACKFS", "$TARGET_NAME", "$MOUNT_PATH"
  }
  const SIMPLE: set<string> := {"$DEVICE", "$FSTYPE", "$MOUNT_TARGET", "$TEMP_DIR", "$MOUNT_PATH"}
  const ZPOOL: set<string> := {"$DEVICE_NUM", "$DEVICE_LIST", "$POOL_NAME", "$OLD_DEVICE", "$NEW_DEVICE"}
  const LVM: set<string> := {
    "$DEVICE", "$DEVICE_NUM", "$DEVICE_LIST", "$VG_NAME", "$LV_NAME", "$LV_SIZE", "$PERCENT_VG"
  }
  const HELPERS: set<string> := {
    "$LV_INDEX", "$CLUSTER_NAME", "$LOCK_SPACE", "$PROTOCOL",
    "$NUM_MDTS", "$NUM_MGTS", "$NUM_MGTMDTS", "$NUM_OSTS", "$NUM_NNFNODES"
  }
  const WORKFLOW: set<string> := {"$JOBID", "$DIRECTIVE_INDEX", "$WORKFLOW_UID", "$USERID", "$GROUPID"}

  // The names looked up in the overrides themselves.
  const LOOKED_UP: set<string> := {
    "$ZPOOL_NAME", "$ZPOOL_DATA_SET", "$VG_NAME", "$LV_NAME", "$PERCENT_VG", "$FSTYPE", "$MOUNT_TARGET", "$TEMP_DIR",
    "$FSNAME", "$TARGET_TYPE", "$TARGET_PATH", "$MGS_NID", "$BACKFS", "$MOUNT_PATH"
  }

  /** The names in use that an override may not set. */
  const FIXED: set<string> := {
    "$TARGET_NAME", "$OLD_DEVICE", "$NEW_DEVICE", "$NUM_MDTS", "$NUM_MGTS", "$NUM_MGTMDTS",
    "$DIRECTIVE_INDEX", "$WORKFLOW_UID", "$FSNAME"
  }

  function InUse(): set<string> {
    LUSTRE + SIMPLE + ZPOOL + LVM + HELPERS + WORKFLOW + LOOKED_UP
  }

  lemma ValidAreInUse()
    ensures VALID_KEYS <= InUse()
  {}

  lemma InUseAreValidOrFixed()
    ensures InUse() <= VALID_KEYS + FIXED && FIXED <= InUse()
  {
    assert LUSTRE <= VALID_KEYS + FIXED && SIMPLE <= VALID_KEYS + FIXED && ZPOOL <= VALID_KEYS + FIXED;
    assert LVM <= VALID_KEYS + FIXED && HELPERS <= VALID_KEYS + FIXED && WORKFLOW <= VALID_KEYS + FIXED;
    assert LOOKED_UP <= VALID_KEYS + FIXED;
  }

  lemma FixedAreNotValid(key: string)
    requires key in FIXED
    ensures key !in VALID_KEYS
  {}

  /** Admission accepts, among all the names in use, all but nine. */
  lemma ValidKeysAreTheNamesInUse()
    ensures VALID_KEYS == InUse() - FIXED
  {
    ValidAreInUse();
    InUseAreValidOrFixed();
    forall key | key in FIXED ensures key !in VALID_KEYS {
      FixedAreNotValid(key);
    }
  }

  function UseOverrideIfPresent(overrides: StringMap, key: string, default: string): string {
    if overrides.Entries? && key in overrides.entries then overrides.entries[key] else default
  }

  lemma LookedUpIsValid(key: string)
    requires key in LOOKED_UP && key != "$FSNAME"
    ensures key in VALID_KEYS
  {}

  /** Of the names looked up, exactly "$FSNAME" can never be found: admission rejects every profile that sets it, so the
      name of a Lustre file system cannot be overridden this way. */
  lemma FileSystemNameCannotBeOverridden(key: string)
    requires key in LOOKED_UP
    ensures (forall t: V11.TargetOptions, default ::
              TargetOk(t) ==> UseOverrideIfPresent(t.variableOverride, key, default) == default) <==> key == "$FSNAME"
  {
    if key != "$FSNAME" {
      var t := V11.ZERO_TARGET.(variableOverride := Entries(map[key := "x"]));
      LookedUpIsValid(key);
      assert TargetOk(t) && UseOverrideIfPresent(t.variableOverride, key, "") == "x";
    } else {
      FixedAreNotValid("$FSNAME");
    }
  }

  /** What admission makes of a storage profile's content, field by field under their names. */
  lemma ContentOkMeans(d: V11.ProfileData)
    ensures ContentOk(d) <==>
      && !(Read11(d, IsDefault).flag && Read11(d, Pinned).flag)
      && !(d.lustreStorage.combinedMGTMDT && d.lustreStorage.mgtOptions.externalMGS != "")
      && !(d.lustreStorage.combinedMGTMDT && d.lustreStorage.mgtOptions.standaloneMGTPoolName != "")
      && !(d.lustreStorage.mgtOptions.externalMGS != "" && d.lustreStorage.mgtOptions.standaloneMGTPoolName != "")
      && (forall t :: Read11(d, InLustre(OfTarget(t, Count))).number <= 0
                   || Read11(d, InLustre(OfTarget(t, Scale))).number <= 0)
      && (forall n :: Read11(d, n).Overrides? ==> Read11(d, n).overrides.Keys() <= VALID_KEYS)
  {
    TargetsMean(d);
    OverridesMean(d);
  }

  ghost predicate AllKeysValid(d: V11.ProfileData) {
    var l := d.lustreStorage;
    && l.mgtOptions.target.variableOverride.Keys() <= VALID_KEYS
    && l.mdtOptions.target.variableOverride.Keys() <= VALID_KEYS
    && l.mgtMdtOptions.target.variableOverride.Keys() <= VALID_KEYS
    && l.ostOptions.target.variableOverride.Keys() <= VALID_KEYS
    && l.clientOptions.variableOverride.Keys() <= VALID_KEYS
    && d.gfs2Storage.variableOverride.Keys() <= VALID_KEYS
    && d.xfsStorage.variableOverride.Keys() <= VALID_KEYS
    && d.rawStorage.variableOverride.Keys() <= VALID_KEYS
  }

  ghost predicate CountOrScale(t: V11.TargetOptions) {
    t.count <= 0 || t.scale <= 0
  }

  lemma TargetsMean(d: V11.ProfileData)
    ensures (forall t :: Read11(d, InLustre(OfTarget(t, Count))).number <= 0
                      || Read11(d, InLustre(OfTarget(t, Scale))).number <= 0) <==>
      var l := d.lustreStorage;
      && CountOrScale(l.mgtOptions.target) && CountOrScale(l.mdtOptions.target)
      && CountOrScale(l.mgtMdtOptions.target) && CountOrScale(l.ostOptions.target)
  {
    if forall t :: Read11(d, InLustre(OfTarget(t, Count))).number <= 0
                || Read11(d, InLustre(OfTarget(t, Scale))).number <= 0 {
      assert Read11(d, InLustre(OfTarget(Mgt, Count))).number <= 0
          || Read11(d, InLustre(OfTarget(Mgt, Scale))).number <= 0;
      assert Read11(d, InLustre(OfTarget(Mdt, Count))).number <= 0
          || Read11(d, InLustre(OfTarget(Mdt, Scale))).number <= 0;
      assert Read11(d, InLustre(OfTarget(MgtMdt, Count))).number <= 0
          || Read11(d, InLustre(OfTarget(MgtMdt, Scale))).number <= 0;
      assert Read11(d, InLustre(OfTarget(Ost, Count))).number <= 0
          || Read11(d, InLustre(OfTarget(Ost, Scale))).number <= 0;
    }
  }

  lemma OverridesMean(d: V11.ProfileData)
    ensures (forall n :: Read11(d, n).Overrides? ==> Read11(d, n).overrides.Keys() <= VALID_KEYS) <==> AllKeysValid(d)
  {
    if forall n :: Read11(d, n).Overrides? ==> Read11(d, n).overrides.Keys() <= VALID_KEYS {
      assert Read11(d, InLustre(OfTarget(Mgt, VariableOverride))).Overrides?;
      assert Read11(d, InLustre(OfTarget(Mdt, VariableOverride))).Overrides?;
      assert Read11(d, InLustre(OfTarget(MgtMdt, VariableOverride))).Overrides?;
      assert Read11(d, InLustre(OfTarget(Ost, VariableOverride))).Overrides?;
      assert Read11(d, InLustre(ClientOverride)).Overrides?;
      assert Read11(d, InSection(Gfs2, SharedOverride)).Overrides?;
      assert Read11(d, InSection(Xfs, SharedOverride)).Overrides?;
      assert Read11(d, InSection(Raw, SharedOverride)).Overrides?;
    }
    if AllKeysValid(d) {
      forall n | Read11(d, n).Overrides? ensures Read11(d, n).overrides.Keys() <= VALID_KEYS {
        OverrideIsValid(d, n);
      }
    }
  }

  lemma OverrideIsValid(d: V11.ProfileData, n: Name)
    requires AllKeysValid(d) && Read11(d, n).Overrides?
    ensures Read11(d, n).overrides.Keys() <= VALID_KEYS
  {
    match n
    case InLustre(OfTarget(_, x)) => assert x == VariableOverride;
    case InLustre(_) =>
    case InSection(_, x) => assert x == SharedOverride;
  }

  /** A target name gives the options of the target it names. */
  lemma TargetOptionsByName(d: V11.ProfileData, x: TargetField)
    ensures Target11(GetLustreTargetOptions(d, "mgt"), x) == Read11(d, InLustre(OfTarget(Mgt, x)))
    ensures Target11(GetLustreTargetOptions(d, "mdt"), x) == Read11(d, InLustre(OfTarget(Mdt, x)))
    ensures Target11(GetLustreTargetOptions(d, "mgtmdt"), x) == Read11(d, InLustre(OfTarget(MgtMdt, x)))
    ensures Target11(GetLustreTargetOptions(d, "ost"), x) == Read11(d, InLustre(OfTarget(Ost, x)))
  {}
}
