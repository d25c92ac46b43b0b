/** NnfNodeBlockStorageStatus on the heap: an array of structs that hold a map of structs that hold arrays. */
module BlockStorageCopies {
  import opened GoValues

  datatype Device = Device(nqn: string, namespaceId: string, capacityAllocated: int)

  class ErrorInfo {
    var text: string

    constructor (text: string)
      ensures this.text == text
    {
      this.text := text;
    }
  }

  // A Go struct is a value; a slice or map in it is a reference.
  datatype Access = Access(devicePaths: array?<string>, storageGroupId: string)
  datatype Allocation =
    Allocation(accesses: MapCell?<Access>, devices: array?<Device>, capacityAllocated: int, storagePoolId: string)
  datatype Status = Status(allocations: array?<Allocation>, error: ErrorInfo?, podStartTime: int, ready: bool)

  // The same things with nothing shared: what they hold.
  datatype AccessValue = AccessValue(devicePaths: Strings, storageGroupId: string)
  datatype AllocationValue =
    AllocationValue(
      accesses: Option<map<string, AccessValue>>, devices: Slice<Device>, capacityAllocated: int, storagePoolId: string)

  ghost function ViewAccess(a: Access): AccessValue
    reads a.devicePaths
  {
    AccessValue(SliceOf(a.devicePaths), a.storageGroupId)
  }

  /** The arrays under a map of accesses. */
  ghost function PathCells(m: map<string, Access>): set<object> {
    set key | key in m && m[key].devicePaths != null :: m[key].devicePaths as object
  }

  ghost function ViewAccesses(m: MapCell?<Access>): Option<map<string, AccessValue>>
    reads m, if m == null then {} else PathCells(m.entries)
  {
    if m == null then None else Some(map key | key in m.entries :: ViewAccess(m.entries[key]))
  }

  ghost function Cells(a: Allocation): set<object>
    reads a.accesses
  {
    (if a.accesses == null then {} else {a.accesses as object} + PathCells(a.accesses.entries)) +
    (if a.devices == null then {} else {a.devices as object})
  }

  ghost function View(a: Allocation): AllocationValue
    reads Cells(a), a.accesses
  {
    AllocationValue(ViewAccesses(a.accesses), SliceOf(a.devices), a.capacityAllocated, a.storagePoolId)
  }

  /** No two nodes share an array of paths. */
  ghost predicate Separate(a: Allocation)
    reads a.accesses
  {
    SeparatePaths(a.accesses)
  }

  ghost predicate SeparatePaths(m: MapCell?<Access>)
    reads m
  {
    m != null ==>
      forall k, l :: k in m.entries && l in m.entries && k != l && m.entries[k].devicePaths != null ==>
        m.entries[k].devicePaths != m.entries[l].devicePaths
  }

  /** What the view shows: every field of the struct, every element of its slices, every entry of its map. */
  lemma ViewMeans(a: Allocation)
    ensures var v := View(a);
      && v.capacityAllocated == a.capacityAllocated && v.storagePoolId == a.storagePoolId
      && v.devices == (if a.devices == null then Nil else Elems(a.devices[..]))
      && (v.accesses == None <==> a.accesses == null)
      && (a.accesses != null ==>
            && v.accesses.value.Keys == a.accesses.entries.Keys
            && forall key :: key in a.accesses.entries ==>
                 var x, y := a.accesses.entries[key], v.accesses.value[key];
                 && y.storageGroupId == x.storageGroupId
                 && y.devicePaths == if x.devicePaths == null then Nil else Elems(x.devicePaths[..]))
  {}

  /** An allocation holds the same as before while nobody writes to its cells. */
  twostate lemma Kept(a: Allocation)
    requires forall o :: o in old(Cells(a)) ==> unchanged(o)
    ensures Cells(a) == old(Cells(a))
    ensures View(a) == old(View(a))
  {
    var m := a.accesses;
    if m != null {
      assert m as object in old(Cells(a));
      var rows := m.entries;
      forall key | key in rows ensures ViewAccess(rows[key]) == old(ViewAccess(rows[key])) {
        assert old(allocated(m.entries[key].devicePaths));
        assert rows[key].devicePaths != null ==> rows[key].devicePaths as object in PathCells(rows);
      }
      assert ViewAccesses(m).value == old(ViewAccesses(m).value);
    }
    assert a.devices != null ==> a.devices as object in old(Cells(a));
  }

  // ---------- Deep copy ----------

  method CopySlice<T(0)>(in_: array?<T>) returns (out: array?<T>)
    ensures out == null <==> in_ == null
    ensures out != null ==> fresh(out) && out[..] == in_[..]
    ensures SliceOf(out) == SliceOf(in_)
  {
    if in_ == null {
      out := null;
    } else {
      var a := new T[in_.Length];
      for i := 0 to in_.Length
        invariant a[..i] == in_[..i]
      {
        a[i] := in_[i];
      }
      assert a[..] == a[..a.Length] == in_[..in_.Length] == in_[..];
      out := a;
    }
  }

  method DeepCopyAccess(in_: Access) returns (out: Access)
    ensures ViewAccess(out) == ViewAccess(in_)
    ensures out.storageGroupId == in_.storageGroupId && (out.devicePaths == null <==> in_.devicePaths == null)
    ensures out.devicePaths != null ==> fresh(out.devicePaths) && out.devicePaths[..] == in_.devicePaths[..]
  {
    var paths := CopySlice(in_.devicePaths);
    out := in_.(devicePaths := paths);
  }

  method CopyAccesses(in_: MapCell?<Access>) returns (out: MapCell?<Access>)
    ensures ViewAccesses(out) == ViewAccesses(in_)
    ensures out != null ==> fresh(out) && fresh(PathCells(out.entries))
    ensures SeparatePaths(out)
    ensures out == null <==> in_ == null
    ensures out != null ==> out.entries.Keys == in_.entries.Keys
  {
    if in_ == null { return null; }
    var copies := new MapCell<Access>();
    FillAccesses(in_, copies);
    assert ViewAccesses(copies).value == ViewAccesses(in_).value;
    out := copies;
  }

  /** The loop over the map, in any key order. */
  method FillAccesses(in_: MapCell<Access>, out: MapCell<Access>)
    requires in_ != out && out.entries == map[]
    modifies out
    ensures in_.entries == old(in_.entries) && out.entries.Keys == in_.entries.Keys
    ensures forall key :: key in out.entries ==> ViewAccess(out.entries[key]) == ViewAccess(in_.entries[key])
    ensures fresh(PathCells(out.entries)) && SeparatePaths(out)
  {
    var remaining := in_.entries.Keys;
    while remaining != {}
      invariant remaining <= in_.entries.Keys && out.entries.Keys == in_.entries.Keys - remaining
      invariant fresh(PathCells(out.entries)) && SeparatePaths(out)
      invariant forall key :: key in out.entries ==> ViewAccess(out.entries[key]) == ViewAccess(in_.entries[key])
    {
      var key :| key in remaining;
      CopyEntry(in_, out, key);
      remaining := remaining - {key};
    }
  }

  /** One turn of the loop. */
  method CopyEntry(in_: MapCell<Access>, out: MapCell<Access>, key: string)
    requires in_ != out && key in in_.entries && key !in out.entries && SeparatePaths(out)
    requires forall k :: k in out.entries ==>
      k in in_.entries && ViewAccess(out.entries[k]) == ViewAccess(in_.entries[k])
    modifies out
    ensures in_.entries == old(in_.entries) && out.entries.Keys == old(out.entries.Keys) + {key} && SeparatePaths(out)
    ensures forall k :: k in out.entries ==>
      k in in_.entries && ViewAccess(out.entries[k]) == ViewAccess(in_.entries[k])
    ensures fresh(PathCells(out.entries) - old(PathCells(out.entries)))
  {
    var copy := DeepCopyAccess(in_.entries[key]);
    assert forall k :: k in out.entries ==>
      (out.entries[k].devicePaths == null || out.entries[k].devicePaths != copy.devicePaths);
    out.entries := out.entries[key := copy];
  }

  method DeepCopyAllocation(in_: Allocation) returns (out: Allocation)
    ensures View(out) == View(in_)
    ensures fresh(Cells(out)) && Separate(out)
    ensures out.capacityAllocated == in_.capacityAllocated && out.storagePoolId == in_.storagePoolId
    ensures (out.accesses == null <==> in_.accesses == null) && (out.devices == null <==> in_.devices == null)
    ensures out.devices != null ==> out.devices[..] == in_.devices[..]
    ensures out.accesses != null ==> out.accesses.entries.Keys == in_.accesses.entries.Keys
  {
    var accesses := CopyAccesses(in_.accesses);
    label CopiedAccesses:
    var devices := CopySlice(in_.devices);
    Kept@CopiedAccesses(in_);
    Kept@CopiedAccesses(in_.(accesses := accesses));
    out := in_.(accesses := accesses, devices := devices);
  }

  method CopyAllocations(in_: array?<Allocation>) returns (out: array?<Allocation>)
    ensures out == null <==> in_ == null
    ensures out != null ==> fresh(out) && out.Length == in_.Length
    ensures out != null ==> forall i :: 0 <= i < out.Length ==>
      View(out[i]) == old(View(in_[i])) && fresh(Cells(out[i])) && Separate(out[i])
    ensures out != null ==> forall i, j :: 0 <= i < j < out.Length ==> Cells(out[i]) !! Cells(out[j])
  {
    if in_ == null { return null; }
    var zero := Allocation(null, null, 0, "");
    var items := new Allocation[in_.Length](_ => zero);
    forall i | 0 <= i < in_.Length ensures View(in_[i]) == old(View(in_[i])) {
      Kept(in_[i]);
    }
    FillAllocations(in_, items);
    out := items;
  }

  method FillAllocations(in_: array<Allocation>, out: array<Allocation>)
    requires in_ != out && in_.Length == out.Length
    requires forall i :: 0 <= i < in_.Length ==> out as object !in Cells(in_[i])
    modifies out
    ensures forall i :: 0 <= i < out.Length ==>
      View(out[i]) == old(View(in_[i])) && fresh(Cells(out[i])) && Separate(out[i])
    ensures forall i, j :: 0 <= i < j < out.Length ==> Cells(out[i]) !! Cells(out[j])
  {
    ghost var parts: seq<set<object>> := [];
    for k := 0 to in_.Length
      invariant unchanged(in_) && |parts| == k && Layers(parts)
      invariant forall i :: 0 <= i < k ==> fresh(parts[i]) && out as object !in parts[i]
      invariant forall i :: 0 <= i < k ==> CopiedAs(out[i], old(View(in_[i])), parts[i])
    {
      Kept(in_[k]);
      ghost var part := CopyElement(in_, out, k, parts);
      parts := parts + [part];
    }
  }

  /** No two of the sets have an element in common. */
  ghost predicate Layers(parts: seq<set<object>>) {
    forall i, j :: 0 <= i < j < |parts| ==> parts[i] !! parts[j]
  }

  ghost predicate CopiedAs(a: Allocation, v: AllocationValue, part: set<object>)
    reads Cells(a), a.accesses
  {
    View(a) == v && Cells(a) == part && Separate(a)
  }

  /** One turn of the loop: only position k of the new slice changes, and what it reaches, the returned part, is new. */
  method CopyElement(in_: array<Allocation>, out: array<Allocation>, k: nat, ghost parts: seq<set<object>>)
      returns (ghost part: set<object>)
    requires in_ != out && in_.Length == out.Length && k < in_.Length && |parts| == k
    requires forall i :: 0 <= i < k ==> Cells(out[i]) == parts[i] && out as object !in parts[i]
    modifies out
    ensures CopiedAs(out[k], old(View(in_[k])), part) && fresh(part) && out as object !in part
    ensures forall i :: 0 <= i < k ==> parts[i] !! part
    ensures forall i, v :: 0 <= i < k && old(CopiedAs(out[i], v, parts[i])) ==> CopiedAs(out[i], v, parts[i])
  {
    var copy := NewElement(in_[k], out[..k]);
    part := Cells(copy);
    label Copied:
    out[k] := copy;
    Kept@Copied(copy);
    forall i | 0 <= i < k ensures View(out[i]) == old(View(out[i])) && Cells(out[i]) == old(Cells(out[i])) {
      Kept(out[i]);
    }
  }

  /** The copy for one position has nothing in common with those before it. */
  method NewElement(in_: Allocation, ghost before: seq<Allocation>) returns (copy: Allocation)
    ensures View(copy) == old(View(in_)) && fresh(Cells(copy)) && Separate(copy)
    ensures forall i :: 0 <= i < |before| ==>
      Cells(before[i]) == old(Cells(before[i])) && Cells(before[i]) !! Cells(copy)
  {
    copy := DeepCopyAllocation(in_);
    Kept(in_);
    forall i | 0 <= i < |before|
      ensures Cells(before[i]) == old(Cells(before[i])) && Cells(before[i]) !! Cells(copy)
    {
      Kept(before[i]);
      assert forall o :: o in old(Cells(before[i])) ==> old(allocated(o));
    }
  }

  method CopyError(in_: ErrorInfo?) returns (out: ErrorInfo?)
    ensures out == null <==> in_ == null
    ensures out != null ==> fresh(out) && out.text == in_.text
  {
    if in_ == null {
      out := null;
    } else {
      out := new ErrorInfo(in_.text);
    }
  }

  /** The deep copy of a status: equal allocations at equal positions, and nothing in it existed before or is shared
      between two allocations. */
  method DeepCopyStatus(in_: Status) returns (out: Status)
    ensures out.podStartTime == in_.podStartTime && out.ready == in_.ready
    ensures out.error == null <==> in_.error == null
    ensures out.error != null ==> fresh(out.error) && out.error.text == in_.error.text
    ensures out.allocations == null <==> in_.allocations == null
    ensures out.allocations != null ==> fresh(out.allocations) && out.allocations.Length == in_.allocations.Length
    ensures out.allocations != null ==> forall i :: 0 <= i < out.allocations.Length ==>
      && View(out.allocations[i]) == old(View(in_.allocations[i])) && fresh(Cells(out.allocations[i]))
      && Separate(out.allocations[i])
    ensures out.allocations != null ==> forall i, j :: 0 <= i < j < out.allocations.Length ==>
      Cells(out.allocations[i]) !! Cells(out.allocations[j])
  {
    var allocations := CopyAllocations(in_.allocations);
    label CopiedAllocations:
    var error := CopyError(in_.error);
    if in_.allocations != null {
      forall i | 0 <= i < allocations.Length
        ensures View(allocations[i]) == old@CopiedAllocations(View(allocations[i]))
        ensures Cells(allocations[i]) == old@CopiedAllocations(Cells(allocations[i]))
      {
        Kept@CopiedAllocations(allocations[i]);
      }
    }
    out := in_.(allocations := allocations, error := error);
  }

  // ---------- Copied against converted ----------

  /** The generated conversion takes over the headers of the map and of the slice. */
  function ConvertAllocation(in_: Allocation): (out: Allocation) {
    Allocation(in_.accesses, in_.devices, in_.capacityAllocated, in_.storagePoolId)
  }

  method WriteDevice(a: Allocation, at: nat, device: Device)
    requires a.devices != null && at < a.devices.Length
    modifies a.devices
    ensures View(a) == old(View(a)).(devices := Elems(old(a.devices[..])[at := device]))
  {
    a.devices[at] := device;
    assert a.accesses != null ==> a.devices as object !in PathCells(a.accesses.entries);
    assert ViewAccesses(a.accesses) == old(ViewAccesses(a.accesses));
  }

  /** The same write, made through the original: a deep copy does not notice it, a converted allocation holds it. */
  method CopyKeepsConversionFollows(original: Allocation, at: nat, device: Device)
      returns (copy: Allocation, converted: Allocation)
    requires original.devices != null && at < original.devices.Length
    modifies original.devices
    ensures View(copy) == old(View(original))
    ensures View(converted) == View(original)
    ensures View(original).devices == Elems(old(original.devices[..])[at := device])
  {
    copy := DeepCopyAllocation(original);
    Kept(original);
    converted := ConvertAllocation(original);
    label Copied:
    WriteDevice(original, at, device);
    Kept@Copied(copy);
  }
}
