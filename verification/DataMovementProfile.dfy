/** Data-movement profiles: one shape in every version, an identity conversion, and admission. */
module DataMovementProfiles {
  import opened Admission

  datatype Data = Data(
    isDefault: bool, pinned: bool, slots: int, maxSlots: int, command: string, logStdout: bool, storeStdout: bool,
    progressIntervalSeconds: int, createDestDir: bool, statCommand: string, mkdirCommand: string,
    setprivCommand: string)

  /** The generated conversion, either way: every field by name. */
  method Convert(src: Data, out: Data) returns (d: Data)
    ensures d == src
  {
    d := out.(isDefault := src.isDefault);
    d := d.(pinned := src.pinned);
    d := d.(slots := src.slots);
    d := d.(maxSlots := src.maxSlots);
    d := d.(command := src.command);
    d := d.(logStdout := src.logStdout);
    d := d.(storeStdout := src.storeStdout);
    d := d.(progressIntervalSeconds := src.progressIntervalSeconds);
    d := d.(createDestDir := src.createDestDir);
    d := d.(statCommand := src.statCommand);
    d := d.(mkdirCommand := src.mkdirCommand);
    d := d.(setprivCommand := src.setprivCommand);
  }

  /** Not both default and pinned; slots within the limit when both are in force. */
  predicate ContentOk(d: Data) {
    && !(d.isDefault && d.pinned)
    && (d.slots <= 0 || d.maxSlots <= 0 || d.slots <= d.maxSlots)
  }

  method ValidateContent(d: Data) returns (ok: bool)
    ensures ok <==> ContentOk(d)
  {
    if d.isDefault && d.pinned {
      return false;
    }
    if d.slots > 0 && d.maxSlots > 0 {
      if d.slots > d.maxSlots {
        return false;
      }
    }
    return true;
  }

  ghost function Rules(): Policy<Data> {
    Policy((d: Data) => d.pinned, (d: Data) => ContentOk(d), true)
  }

  method ValidateCreate(r: Profile<Data>, profileNamespace: string) returns (ok: bool)
    ensures ok <==> AcceptsCreate(Rules(), profileNamespace, r)
  {
    if !r.data.pinned && r.namespace != profileNamespace {
      return false;
    }
    ok := ValidateContent(r.data);
  }

  method ValidateUpdate(stored: Data, r: Data) returns (ok: bool)
    ensures ok <==> AcceptsUpdate(Rules(), stored, r)
  {
    if stored.pinned != r.pinned {
      return false;
    }
    if stored.pinned {
      if r != stored {
        return false;
      }
    }
    ok := ValidateContent(r);
  }

  /** The two admission rules in full. */
  lemma RulesMean(profileNamespace: string, created: Profile<Data>, stored: Data, r: Data)
    ensures AcceptsCreate(Rules(), profileNamespace, created) <==>
      (created.data.pinned || created.namespace == profileNamespace) && ContentOk(created.data)
    ensures AcceptsUpdate(Rules(), stored, r) <==>
      (if stored.pinned then r == stored else !r.pinned) && ContentOk(r)
    ensures !ContentOk(r) <==>
      (r.isDefault && r.pinned) || (r.slots > 0 && r.maxSlots > 0 && r.slots > r.maxSlots)
  {}

  /** A pinned profile is for ever what it was created as; every stored profile is valid. */
  lemma PinnedProfileIsImmutable(profileNamespace: string, created: Profile<Data>, requests: seq<Data>)
    requires AcceptsCreate(Rules(), profileNamespace, created)
    ensures var now := Run(Rules(), created, requests).data;
      && ContentOk(now)
      && !(now.isDefault && now.pinned)
      && (0 < now.slots && 0 < now.maxSlots ==> now.slots <= now.maxSlots)
      && now.pinned == created.data.pinned
      && (created.data.pinned ==> now == created.data)
  {
    RunKeeps(Rules(), profileNamespace, created, requests);
  }

  /** A client of v1alpha10 that writes back what it read, through both conversions, is always accepted. */
  method ReadAndWriteBack(stored: Data, spokeZero: Data, hubZero: Data) returns (accepted: bool)
    requires ContentOk(stored)
    ensures accepted
  {
    var spoke := Convert(stored, spokeZero);
    var hub := Convert(spoke, hubZero);
    accepted := ValidateUpdate(stored, hub);
  }
}
