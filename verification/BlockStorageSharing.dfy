/** Two holders of block-storage allocations, after a deep copy and after a generated conversion. */
module BlockStorageSharing {
  import opened GoValues
  import opened BlockStorageCopies

  /** What a holder may do to one allocation; a store into a nil map or past the end of a slice is skipped, since it
      would panic. */
  datatype Write =
    | SetDevice(at: nat, device: Device)
    | SetPath(node: string, at: nat, path: string)
    | PutAccess(node: string, storageGroupId: string, paths: seq<string>)
    | DropAccess(node: string)
    // Stores into the fields of the struct itself.
    | SetCapacity(capacity: int)
    | SetPool(storagePoolId: string)
    | SetDevices(devices: Slice<Device>)
    | ClearAccesses
    | NewAccesses
    | Replace(newCapacity: int, newPool: string)

  /** A store into the slice itself, rather than through something an allocation refers to. */
  predicate IsStore(w: Write) {
    !w.SetDevice? && !w.SetPath? && !w.PutAccess? && !w.DropAccess?
  }

  function StoredAt<T>(s: Slice<T>, at: nat, x: T): Slice<T> {
    if at < |s.List()| then Elems(s.List()[at := x]) else s
  }

  function Effect(v: AllocationValue, w: Write): AllocationValue {
    match w
    case SetDevice(at, device) => v.(devices := StoredAt(v.devices, at, device))
    case SetPath(node, at, path) =>
      if v.accesses.Some? && node in v.accesses.value then
        var access := v.accesses.value[node];
        v.(accesses := Some(v.accesses.value[node := access.(devicePaths := StoredAt(access.devicePaths, at, path))]))
      else v
    case PutAccess(node, group, paths) =>
      if v.accesses.Some? then v.(accesses := Some(v.accesses.value[node := AccessValue(Elems(paths), group)])) else v
    case DropAccess(node) =>
      if v.accesses.Some? then v.(accesses := Some(v.accesses.value - {node})) else v
    case SetCapacity(capacity) => v.(capacityAllocated := capacity)
    case SetPool(pool) => v.(storagePoolId := pool)
    case SetDevices(devices) => v.(devices := devices)
    case ClearAccesses => v.(accesses := None)
    case NewAccesses => v.(accesses := Some(map[]))
    case Replace(capacity, pool) => AllocationValue(None, Nil, capacity, pool)
  }

  method ApplySetPath(a: Allocation, node: string, at: nat, path: string)
    modifies Cells(a)
    ensures Cells(a) == old(Cells(a))
    ensures old(Separate(a)) ==> Separate(a) && View(a) == Effect(old(View(a)), SetPath(node, at, path))
  {
    var m := a.accesses;
    if m != null && node in m.entries && m.entries[node].devicePaths != null &&
       at < m.entries[node].devicePaths.Length {
      assert m.entries[node].devicePaths as object in PathCells(m.entries);
      m.entries[node].devicePaths[at] := path;
      assert a.devices == null || a.devices as object != m.entries[node].devicePaths;
    }
    if old(Separate(a)) && m != null {
      assert ViewAccesses(m).value == Effect(old(View(a)), SetPath(node, at, path)).accesses.value;
    }
  }

  method ApplySetDevice(a: Allocation, at: nat, device: Device)
    modifies Cells(a)
    ensures Cells(a) == old(Cells(a))
    ensures old(Separate(a)) ==> Separate(a)
    ensures View(a) == Effect(old(View(a)), SetDevice(at, device))
  {
    if a.devices != null && at < a.devices.Length {
      WriteDevice(a, at, device);
    }
  }

  method ApplyPutAccess(a: Allocation, node: string, group: string, paths: seq<string>)
    modifies Cells(a)
    ensures fresh(Cells(a) - old(Cells(a)))
    ensures old(Separate(a)) ==> Separate(a)
    ensures View(a) == Effect(old(View(a)), PutAccess(node, group, paths))
  {
    var m := a.accesses;
    if m != null {
      var fresh_ := new string[|paths|](i requires 0 <= i < |paths| => paths[i]);
      assert fresh_[..] == paths;
      label Made:
      m.entries := m.entries[node := Access(fresh_, group)];
      assert ViewAccesses(m).value == Effect(old(View(a)), PutAccess(node, group, paths)).accesses.value;
    }
  }

  method ApplyDropAccess(a: Allocation, node: string)
    modifies Cells(a)
    ensures Cells(a) <= old(Cells(a))
    ensures old(Separate(a)) ==> Separate(a)
    ensures View(a) == Effect(old(View(a)), DropAccess(node))
  {
    var m := a.accesses;
    if m != null {
      m.entries := m.entries - {node};
      assert ViewAccesses(m).value == Effect(old(View(a)), DropAccess(node)).accesses.value;
    }
  }

  /** A write through one of the allocation's references. */
  method Apply(a: Allocation, w: Write)
    requires !IsStore(w)
    modifies Cells(a)
    ensures fresh(Cells(a) - old(Cells(a)))
    ensures old(Separate(a)) ==> Separate(a) && View(a) == Effect(old(View(a)), w)
  {
    match w
    case SetDevice(at, device) => ApplySetDevice(a, at, device);
    case SetPath(node, at, path) => ApplySetPath(a, node, at, path);
    case PutAccess(node, group, paths) => ApplyPutAccess(a, node, group, paths);
    case DropAccess(node) => ApplyDropAccess(a, node);
  }

  method NewSlice<T>(s: Slice<T>) returns (a: array?<T>)
    ensures SliceOf(a) == s && (a != null ==> fresh(a))
  {
    match s
    case Nil => a := null;
    case Elems(elems) =>
      a := new T[|elems|](i requires 0 <= i < |elems| => elems[i]);
      assert a[..] == elems;
  }

  /** The struct as it is to be stored: it refers to what the old one referred to, or to new cells. */
  method Built(a: Allocation, w: Write) returns (b: Allocation, ghost N: set<object>)
    requires IsStore(w)
    ensures fresh(N) && Cells(b) <= Cells(a) + N && (Separate(a) ==> Separate(b))
    ensures View(b) == Effect(View(a), w)
  {
    N := {};
    match w
    case SetCapacity(capacity) => b := a.(capacityAllocated := capacity);
    case SetPool(pool) => b := a.(storagePoolId := pool);
    case SetDevices(s) =>
      var devices := NewSlice(s);
      Kept(a);
      b := a.(devices := devices);
      N := if devices == null then {} else {devices as object};
    case ClearAccesses => b := a.(accesses := null);
    case NewAccesses =>
      var accesses := new MapCell<Access>();
      Kept(a);
      b := a.(accesses := accesses);
      N := {accesses};
    case Replace(capacity, pool) => b := Allocation(null, null, capacity, pool);
  }

  // ---------- Whole lists of allocations ----------

  ghost function Footprint(xs: seq<Allocation>): set<object>
    reads set a | a in xs && a.accesses != null :: a.accesses
  {
    set a, o | a in xs && o in Cells(a) :: o
  }

  /** Nothing in the list is shared by two of its allocations, or by two nodes of one. */
  ghost predicate SeparateAll(xs: seq<Allocation>)
    reads set a | a in xs && a.accesses != null :: a.accesses
  {
    && (forall i :: 0 <= i < |xs| ==> Separate(xs[i]))
    && (forall i, j :: 0 <= i < j < |xs| ==> Cells(xs[i]) !! Cells(xs[j]))
  }

  ghost predicate Holds(xs: seq<Allocation>, vs: seq<AllocationValue>)
    reads set a | a in xs && a.accesses != null :: a.accesses
    reads Footprint(xs)
  {
    |xs| == |vs| && forall i :: 0 <= i < |xs| ==> View(xs[i]) == vs[i]
  }

  /** The list holds these values, and nothing in it is shared. */
  ghost predicate Sound(xs: seq<Allocation>, us: seq<AllocationValue>)
    reads set a | a in xs && a.accesses != null :: a.accesses
    reads Footprint(xs)
  {
    SeparateAll(xs) && Holds(xs, us)
  }

  /** A list keeps its value while nobody writes to its cells. */
  twostate lemma KeptAll(xs: seq<Allocation>)
    requires forall o :: o in old(Footprint(xs)) ==> unchanged(o)
    ensures Footprint(xs) == old(Footprint(xs))
    ensures SeparateAll(xs) == old(SeparateAll(xs))
    ensures forall us :: Sound(xs, us) == old(Sound(xs, us))
  {
    forall a | a in xs
      ensures View(a) == old(View(a)) && Cells(a) == old(Cells(a)) && Separate(a) == old(Separate(a))
    {
      forall o | o in old(Cells(a)) ensures unchanged(o) {
        assert o in old(Footprint(xs));
      }
      Kept(a);
      assert a.accesses != null ==> a.accesses as object in old(Cells(a));
    }
    assert forall i :: 0 <= i < |xs| ==> xs[i] in xs;
  }

  /** One write, to the allocation at a position: the list reaches nothing but what it reached before and the cells N,
      which are new. */
  method ApplyInList(xs: seq<Allocation>, at: nat, w: Write) returns (ghost N: set<object>)
    requires at < |xs| && !IsStore(w)
    modifies Cells(xs[at])
    ensures fresh(N) && Footprint(xs) <= old(Footprint(xs)) + N && Cells(xs[at]) <= old(Cells(xs[at])) + N
    ensures old(Separate(xs[at])) ==> Separate(xs[at]) && View(xs[at]) == Effect(old(View(xs[at])), w)
  {
    ghost var before, cells := Footprint(xs), Cells(xs[at]);
    Apply(xs[at], w);
    N := Cells(xs[at]) - cells;
    forall b, o | b in xs && o in Cells(b) ensures o in before + N {
      assert forall c :: c in cells + old(Cells(b)) ==> c in before;
      if b.accesses != xs[at].accesses && b.accesses != null {
        assert b.accesses as object !in cells;
        assert o in old(Cells(b));
      }
    }
  }

  /** Allocations that have no cell in common with that one are as they were. */
  method ApplyBeside(xs: seq<Allocation>, at: nat, w: Write, ghost others: seq<Allocation>)
      returns (ghost N: set<object>)
    requires at < |xs| && !IsStore(w) && Footprint(others) !! Cells(xs[at])
    modifies Cells(xs[at])
    ensures fresh(N) && Footprint(xs) <= old(Footprint(xs)) + N
    ensures Cells(xs[at]) <= old(Cells(xs[at])) + N && N !! Footprint(others)
    ensures old(Separate(xs[at])) ==> Separate(xs[at]) && View(xs[at]) == Effect(old(View(xs[at])), w)
    ensures Footprint(others) == old(Footprint(others))
    ensures forall us :: Sound(others, us) == old(Sound(others, us))
  {
    ghost var region := Footprint(others);
    N := ApplyInList(xs, at, w);
    KeptAll(others);
    assert N !! region;
  }

  /** And the other allocations of the list are, if nothing was shared. */
  method ApplyAt(xs: seq<Allocation>, ghost us: seq<AllocationValue>, at: nat, w: Write) returns (ghost N: set<object>)
    requires at < |xs| == |us| && !IsStore(w)
    modifies Cells(xs[at])
    ensures fresh(N) && Footprint(xs) <= old(Footprint(xs)) + N
    ensures old(Sound(xs, us)) ==> Sound(xs, us[at := Effect(us[at], w)])
  {
    ghost var sound, after := Sound(xs, us), us[at := Effect(us[at], w)];
    if sound {
      SoundApart(xs, us, at);
    }
    N := ApplyBeside(xs, at, w, if sound then Without(xs, at) else []);
    if sound {
      assert Without(us, at) == Without(after, at);
      SoundTogether(xs, after, at);
    }
  }

  function Without<T>(xs: seq<T>, at: nat): seq<T>
    requires at < |xs|
  {
    xs[..at] + xs[at + 1..]
  }

  /** Where a position of the whole list is in the list without one, and back. */
  function Outer(k: nat, at: nat): nat {
    if k < at then k else k + 1
  }

  function Inner(j: nat, at: nat): nat
    requires j != at
  {
    if j < at then j else j - 1
  }

  lemma SoundApart(xs: seq<Allocation>, us: seq<AllocationValue>, at: nat)
    requires at < |xs| == |us| && Sound(xs, us)
    ensures Separate(xs[at]) && View(xs[at]) == us[at]
    ensures Sound(Without(xs, at), Without(us, at)) && Footprint(Without(xs, at)) !! Cells(xs[at])
  {
    var ys, ws := Without(xs, at), Without(us, at);
    forall k | 0 <= k < |ys| ensures Separate(ys[k]) && View(ys[k]) == ws[k] {
      assert ys[k] == xs[Outer(k, at)] && ws[k] == us[Outer(k, at)];
    }
    forall k, l | 0 <= k < l < |ys| ensures Cells(ys[k]) !! Cells(ys[l]) {
      assert ys[k] == xs[Outer(k, at)] && ys[l] == xs[Outer(l, at)];
    }
    forall y | y in ys ensures Cells(y) !! Cells(xs[at]) {
      var k :| 0 <= k < |ys| && ys[k] == y;
      assert y == xs[Outer(k, at)];
    }
  }

  /** Together again: a sound list without the position, a sound allocation there, and no cell in common. */
  lemma SoundTogether(xs: seq<Allocation>, us: seq<AllocationValue>, at: nat)
    requires at < |xs| == |us| && Separate(xs[at]) && View(xs[at]) == us[at]
    requires Sound(Without(xs, at), Without(us, at)) && Footprint(Without(xs, at)) !! Cells(xs[at])
    ensures Sound(xs, us)
  {
    var ys, ws := Without(xs, at), Without(us, at);
    forall j | 0 <= j < |xs| && j != at
      ensures Separate(xs[j]) && View(xs[j]) == us[j] && Cells(xs[j]) !! Cells(xs[at])
    {
      assert ys[Inner(j, at)] == xs[j] && ws[Inner(j, at)] == us[j] && xs[j] in ys;
      assert forall o :: o in Cells(xs[j]) ==> o in Footprint(ys);
    }
    forall i, j | 0 <= i < j < |xs| && i != at && j != at ensures Cells(xs[i]) !! Cells(xs[j]) {
      assert ys[Inner(i, at)] == xs[i] && ys[Inner(j, at)] == xs[j];
    }
  }

  // ---------- One holder of a status ----------

  function Items(st: Status): seq<Allocation>
    reads st.allocations
  {
    if st.allocations == null then [] else st.allocations[..]
  }

  /** What a status holds in memory it may share: its allocations and the text of its error. */
  datatype Content = Content(items: seq<AllocationValue>, error: Option<string>)

  /** Everything the status reaches. */
  ghost function Region(st: Status): set<object>
    reads st.allocations
    reads set a | a in Items(st) && a.accesses != null :: a.accesses
  {
    Footprint(Items(st)) +
    (if st.allocations == null then {} else {st.allocations as object}) +
    (if st.error == null then {} else {st.error as object})
  }

  ghost function ErrorText(st: Status): Option<string>
    reads st.error
  {
    if st.error == null then None else Some(st.error.text)
  }

  ghost predicate Contains(st: Status, c: Content)
    reads st.allocations, st.error
    reads set a | a in Items(st) && a.accesses != null :: a.accesses
    reads Footprint(Items(st))
  {
    Holds(Items(st), c.items) && c.error == ErrorText(st)
  }

  /** The status contains this, and nothing is shared within it. */
  ghost predicate Shows(st: Status, c: Content)
    reads st.allocations, st.error
    reads set a | a in Items(st) && a.accesses != null :: a.accesses
    reads Footprint(Items(st))
  {
    Sound(Items(st), c.items) && c.error == ErrorText(st)
  }

  /** The slice and the error of a status are none of the cells its allocations reach. */
  lemma Layered(st: Status)
    ensures st.allocations != null ==> st.allocations as object !in Footprint(Items(st))
    ensures st.error != null ==> st.error as object !in Footprint(Items(st))
  {}

  twostate lemma KeptStatus(st: Status)
    requires forall o :: o in old(Region(st)) ==> unchanged(o)
    ensures Items(st) == old(Items(st)) && Region(st) == old(Region(st))
    ensures forall c :: Shows(st, c) == old(Shows(st, c))
  {
    assert st.allocations != null ==> st.allocations as object in old(Region(st));
    assert st.error != null ==> st.error as object in old(Region(st));
    KeptAll(Items(st));
  }

  /** Another allocation at one position, with nothing the others reach. */
  lemma SoundReplaced(xs: seq<Allocation>, us: seq<AllocationValue>, at: nat, b: Allocation, N: set<object>)
    requires at < |xs| == |us| && Sound(xs, us) && Separate(b) && Cells(b) <= Cells(xs[at]) + N && N !! Footprint(xs)
    ensures Sound(xs[at := b], us[at := View(b)])
  {
    SoundApart(xs, us, at);
    FootprintReplaced(xs, at, b);
    var ys, vs := xs[at := b], us[at := View(b)];
    assert Without(ys, at) == Without(xs, at) && Without(vs, at) == Without(us, at);
    SoundTogether(ys, vs, at);
  }

  lemma FootprintReplaced(xs: seq<Allocation>, at: nat, b: Allocation)
    requires at < |xs|
    ensures Footprint(xs[at := b]) <= Footprint(xs) + Cells(b)
    ensures Footprint(Without(xs, at)) <= Footprint(xs)
  {
    assert forall x :: x in xs[at := b] ==> x in xs || x == b;
    assert forall x :: x in Without(xs, at) ==> x in xs;
  }

  /** The struct to be stored, next to the list, which stays as it is; N are the new cells. */
  method BuiltBeside(xs: seq<Allocation>, at: nat, w: Write) returns (b: Allocation, ghost N: set<object>)
    requires at < |xs| && IsStore(w)
    ensures fresh(N) && N !! Footprint(xs) && Cells(b) <= Cells(xs[at]) + N
    ensures (Separate(xs[at]) ==> Separate(b)) && View(b) == Effect(View(xs[at]), w)
    ensures Footprint(xs) == old(Footprint(xs)) && forall us :: Sound(xs, us) == old(Sound(xs, us))
  {
    ghost var region := Footprint(xs);
    b, N := Built(xs[at], w);
    KeptAll(xs);
    assert N !! region;
  }

  /** The list as it is going to be after a store: still sound, and it reaches only new cells besides. */
  lemma Replaced(xs: seq<Allocation>, us: seq<AllocationValue>, at: nat, w: Write, b: Allocation, N: set<object>)
    requires at < |xs| == |us| && Cells(b) <= Cells(xs[at]) + N && N !! Footprint(xs)
    requires (Separate(xs[at]) ==> Separate(b)) && View(b) == Effect(View(xs[at]), w)
    ensures Footprint(xs[at := b]) <= Footprint(xs) + N
    ensures Sound(xs, us) ==> Sound(xs[at := b], us[at := Effect(us[at], w)])
  {
    FootprintReplaced(xs, at, b);
    InFootprint(xs, at);
    if Sound(xs, us) {
      SoundReplaced(xs, us, at, b, N);
    }
  }

  lemma InFootprint(xs: seq<Allocation>, at: nat)
    requires at < |xs|
    ensures Cells(xs[at]) <= Footprint(xs)
  {
    assert xs[at] in xs;
  }

  /** A store into the slice. */
  method StoreAt(A: array<Allocation>, ghost us: seq<AllocationValue>, at: nat, w: Write)
    requires at < A.Length == |us| && IsStore(w) && A as object !in Footprint(A[..])
    modifies A
    ensures fresh(Footprint(A[..]) - old(Footprint(A[..])))
    ensures old(Sound(A[..], us)) ==> Sound(A[..], us[at := Effect(us[at], w)])
  {
    ghost var xs := A[..];
    var b;
    ghost var N;
    b, N := BuiltBeside(A[..], at, w);
    Replaced(xs, us, at, w, b, N);
    ghost var ys := xs[at := b];
    label Made:
    A[at] := b;
    KeptAll@Made(ys);
    assert A[..] == ys;
  }

  /** Either kind of write, within a region F that grows by new cells only. */
  method WriteAt(A: array<Allocation>, ghost us: seq<AllocationValue>, at: nat, w: Write, ghost F: set<object>)
      returns (ghost F': set<object>)
    requires at < A.Length == |us| && Footprint(A[..]) <= F && A as object !in Footprint(A[..])
    modifies F, A
    ensures F <= F' && fresh(F' - F) && Footprint(A[..]) <= F'
    ensures old(Sound(A[..], us)) ==> Sound(A[..], us[at := Effect(us[at], w)])
  {
    ghost var xs, region := A[..], Footprint(A[..]);
    if IsStore(w) {
      StoreAt(A, us, at, w);
    } else {
      InFootprint(A[..], at);
      assert A as object !in Cells(A[..][at]);
      ghost var N := ApplyAt(A[..], us, at, w);
      assert A[..] == xs;
    }
    F' := F + (Footprint(A[..]) - region);
  }

  /** A write through a status. */
  datatype Action = At(at: nat, write: Write) | SetError(text: string)

  /** What cannot be done, for want of such an allocation or of an error, panics and changes nothing. */
  function Acted(c: Content, a: Action): (d: Content)
    ensures |d.items| == |c.items|
  {
    match a
    case At(at, w) => if at < |c.items| then c.(items := c.items[at := Effect(c.items[at], w)]) else c
    case SetError(text) => if c.error.Some? then c.(error := Some(text)) else c
  }

  method WriteError(st: Status, ghost c: Content, text: string)
    requires st.error != null && |c.items| == |Items(st)|
    modifies st.error
    ensures Items(st) == old(Items(st)) && Region(st) == old(Region(st))
    ensures old(Shows(st, c)) ==> Shows(st, c.(error := Some(text)))
  {
    Layered(st);
    st.error.text := text;
    KeptAll(Items(st));
  }

  method WriteItem(st: Status, ghost c: Content, at: nat, w: Write) returns (ghost N: set<object>)
    requires st.allocations != null && at < |Items(st)| == |c.items|
    modifies Region(st) - {st.error}
    ensures fresh(N) && Region(st) <= old(Region(st)) + N
    ensures |Items(st)| == old(|Items(st)|)
    ensures old(Shows(st, c)) ==> Shows(st, c.(items := c.items[at := Effect(c.items[at], w)]))
  {
    Layered(st);
    ghost var F := Footprint(Items(st));
    ghost var F' := WriteAt(st.allocations, c.items, at, w, F);
    N := F' - F;
  }

  method Act(st: Status, action: Action, ghost c: Content, ghost F: set<object>) returns (ghost F': set<object>)
    requires Region(st) <= F && |c.items| == |Items(st)|
    modifies F
    ensures F <= F' && fresh(F' - F) && Region(st) <= F'
    ensures |Items(st)| == old(|Items(st)|)
    ensures old(Shows(st, c)) ==> Shows(st, Acted(c, action))
  {
    F' := F;
    match action
    case At(at, w) =>
      if st.allocations != null && at < st.allocations.Length {
        ghost var N := WriteItem(st, c, at, w);
        F' := F + N;
      }
    case SetError(text) =>
      if st.error != null {
        WriteError(st, c, text);
      }
  }

  // ---------- Two holders ----------

  datatype Turn = Turn(second: bool, action: Action)

  /** Only the writes made through one holder. */
  function Own(c: Content, turns: seq<Turn>, second: bool): (d: Content)
    ensures |d.items| == |c.items|
  {
    if turns == [] then c
    else
      var before, t := Own(c, turns[..|turns| - 1], second), turns[|turns| - 1];
      if t.second == second then Acted(before, t.action) else before
  }

  /** All of them. */
  function All(c: Content, turns: seq<Turn>): (d: Content)
    ensures |d.items| == |c.items|
  {
    if turns == [] then c else Acted(All(c, turns[..|turns| - 1]), turns[|turns| - 1].action)
  }

  /** One holder writes; the other, whose region is apart, notices nothing. */
  method OneTurn(
      st: Status, other: Status, action: Action, ghost c: Content, ghost F: set<object>, ghost G: set<object>)
      returns (ghost F': set<object>)
    requires Region(st) <= F && Region(other) <= G && F !! G && |c.items| == |Items(st)|
    modifies F
    ensures F <= F' && fresh(F' - F) && Region(st) <= F' && F' !! G
    ensures Items(other) == old(Items(other)) && Region(other) <= G
    ensures |Items(st)| == old(|Items(st)|)
    ensures old(Shows(st, c)) ==> Shows(st, Acted(c, action))
    ensures forall d :: Shows(other, d) == old(Shows(other, d))
  {
    F' := Act(st, action, c, F);
    KeptStatus(other);
  }

  method EitherTurn(first: Status, second: Status, t: Turn, ghost c: Content, ghost d: Content, ghost F: set<object>,
                    ghost G: set<object>) returns (ghost F': set<object>, ghost G': set<object>)
    requires Region(first) <= F && Region(second) <= G && F !! G
    requires |c.items| == |Items(first)| && |d.items| == |Items(second)|
    modifies F, G
    ensures F <= F' && G <= G' && fresh(F' - F) && fresh(G' - G) && F' !! G'
    ensures Region(first) <= F' && Region(second) <= G'
    ensures |Items(first)| == old(|Items(first)|) && |Items(second)| == old(|Items(second)|)
    ensures old(Shows(first, c)) ==> Shows(first, if t.second then c else Acted(c, t.action))
    ensures old(Shows(second, d)) ==> Shows(second, if t.second then Acted(d, t.action) else d)
  {
    F', G' := F, G;
    if t.second {
      G' := OneTurn(second, first, t.action, d, G, F);
    } else {
      F' := OneTurn(first, second, t.action, c, F, G);
    }
  }

  /** Two statuses whose regions are apart: however their holders take turns writing, each ends up with exactly the
      writes made through it, unless it has something shared within itself. */
  method TakeTurns(first: Status, second: Status, ghost c: Content, ghost d: Content, turns: seq<Turn>,
                   ghost F0: set<object>, ghost G0: set<object>)
    requires Region(first) <= F0 && Region(second) <= G0 && F0 !! G0
    requires |c.items| == |Items(first)| && |d.items| == |Items(second)|
    modifies F0, G0
    ensures old(Shows(first, c)) ==> Shows(first, Own(c, turns, false))
    ensures old(Shows(second, d)) ==> Shows(second, Own(d, turns, true))
  {
    ghost var F, G := F0, G0;
    for i := 0 to |turns|
      invariant Region(first) <= F && Region(second) <= G && F !! G
      invariant fresh(F - F0) && fresh(G - G0)
      invariant |c.items| == |Items(first)| && |d.items| == |Items(second)|
      invariant old(Shows(first, c)) ==> Shows(first, Own(c, turns[..i], false))
      invariant old(Shows(second, d)) ==> Shows(second, Own(d, turns[..i], true))
    {
      assert turns[..i + 1][..i] == turns[..i];
      F, G := EitherTurn(first, second, turns[i], Own(c, turns[..i], false), Own(d, turns[..i], true), F, G);
    }
    assert turns[..|turns|] == turns;
  }

  lemma ShowsEqual(st: Status, c: Content)
    requires |Items(st)| == |c.items| && c.error == ErrorText(st)
    requires forall i :: 0 <= i < |c.items| ==> View(Items(st)[i]) == c.items[i] && Separate(Items(st)[i])
    requires forall i, j :: 0 <= i < j < |c.items| ==> Cells(Items(st)[i]) !! Cells(Items(st)[j])
    ensures Shows(st, c)
  {}

  method CopyShowing(original: Status, ghost c: Content) returns (copy: Status)
    requires Contains(original, c)
    ensures Shows(copy, c) && fresh(Region(copy))
  {
    copy := DeepCopyStatus(original);
    ShowsEqual(copy, c);
  }

  /** The deep copy shows the same, shares nothing within itself, and reaches only new cells. */
  method CopyApart(original: Status, ghost c: Content, ghost F: set<object>)
      returns (copy: Status, ghost G: set<object>)
    requires Contains(original, c) && Region(original) <= F
    ensures Shows(copy, c) && Region(copy) <= G && fresh(G)
    ensures Region(original) <= F && Items(original) == old(Items(original))
    ensures forall d :: Shows(original, d) == old(Shows(original, d))
  {
    copy := CopyShowing(original, c);
    G := Region(copy);
    KeptStatus(original);
  }

  /** After a deep copy the two holders of a status each see exactly their own writes, whatever they write and however
      they take turns; the original, unless it had something shared within itself. F is what the original reaches. */
  method DeepCopyIsolates(original: Status, ghost c: Content, turns: seq<Turn>, ghost F: set<object>)
      returns (copy: Status)
    requires Contains(original, c) && F == Region(original)
    modifies F
    ensures old(SeparateAll(Items(original))) ==> Shows(original, Own(c, turns, false))
    ensures Shows(copy, Own(c, turns, true))
  {
    ghost var G;
    copy, G := CopyApart(original, c, F);
    TakeTurns(original, copy, c, c, turns, F, G);
  }

  /** The generated conversion takes over the header of the slice and the error, so either holder sees every write. */
  method ConversionShares(original: Status, ghost c: Content, turns: seq<Turn>, ghost F0: set<object>)
      returns (converted: Status)
    requires Contains(original, c) && F0 == Region(original)
    modifies F0
    ensures Items(converted) == Items(original) && converted.error == original.error
    ensures old(SeparateAll(Items(original))) ==> Shows(original, All(c, turns)) && Shows(converted, All(c, turns))
  {
    converted := Status(original.allocations, original.error, original.podStartTime, original.ready);
    ghost var F := F0;
    for i := 0 to |turns|
      invariant Region(original) <= F && fresh(F - F0) && |c.items| == |Items(original)|
      invariant old(SeparateAll(Items(original))) ==> Shows(original, All(c, turns[..i]))
    {
      assert turns[..i + 1][..i] == turns[..i];
      F := Act(if turns[i].second then converted else original, turns[i].action, All(c, turns[..i]), F);
    }
    assert turns[..|turns|] == turns;
  }
}
