/** NnfNodeECDataStatus on the heap: a map of maps, deep-copied by one generated function, shared by another. */
module ECDataCopies {
  import opened GoValues

  type PrivateData = MapCell?<string>
  type Table = MapCell?<PrivateData>

  // ---------- What a table holds, and the cells that hold it ----------

  ghost function InnerView(m: PrivateData): StringMap
    reads m
  {
    if m == null then NilMap else Entries(m.entries)
  }

  datatype ECValue = NilTable | Table(rows: map<string, StringMap>)

  ghost function InnerCells(rows: map<string, PrivateData>): set<object> {
    set key | key in rows && rows[key] != null :: rows[key] as object
  }

  ghost function Cells(d: Table): set<object>
    reads d
  {
    if d == null then {} else {d as object} + InnerCells(d.entries)
  }

  ghost function View(d: Table): ECValue
    reads d, Cells(d)
  {
    if d == null then NilTable
    else ECValue.Table(map key | key in d.entries :: InnerView(d.entries[key]))
  }

  /** No two keys share an inner map. */
  ghost predicate Separate(d: Table)
    reads d
  {
    d != null ==>
      forall k, l :: k in d.entries && l in d.entries && k != l && d.entries[k] != null ==> d.entries[k] != d.entries[l]
  }

  /** What the view shows: the keys, which rows are nil, and the entries of the others. */
  lemma ViewMeans(d: Table)
    ensures View(d) == NilTable <==> d == null
    ensures d != null ==>
      && View(d).rows.Keys == d.entries.Keys
      && forall key :: key in d.entries ==>
           View(d).rows[key] == if d.entries[key] == null then NilMap else Entries(d.entries[key].entries)
  {}

  // ---------- Deep copy ----------

  class NnfNodeECDataStatus {
    var data: Table

    constructor ()
      ensures data == null
    {
      data := null;
    }

    /** The copy has the same content, nil maps included, in new cells only; no two keys share one, even if they did
        before. Copying a status into itself empties it: the new map is stored before the old one is read. */
    method DeepCopyInto(out: NnfNodeECDataStatus)
      modifies out
      ensures out != this ==> View(out.data) == old(View(data)) == View(data)
      ensures out == this && old(data) != null ==> View(out.data) == ECValue.Table(map[])
      ensures out == this && old(data) == null ==> out.data == null
      ensures fresh(Cells(out.data)) && Separate(out.data)
    {
      out.data := data;
      if data != null {
        out.data := new MapCell<PrivateData>();
        CopyRows(data, out.data);
      }
    }
  }

  /** Fills an empty map with copies, visiting the keys in any order. */
  method CopyRows(from: MapCell<PrivateData>, to: MapCell<PrivateData>)
    requires to.entries == map[]
    modifies to
    ensures from == to ==> to.entries == map[]
    ensures from != to ==> View(to) == old(View(from))
    ensures fresh(Cells(to) - {to}) && Separate(to)
  {
    var remaining := from.entries.Keys;
    while remaining != {}
      invariant from == to ==> to.entries == map[] && remaining == {}
      invariant from != to ==> remaining <= from.entries.Keys && to.entries.Keys == from.entries.Keys - remaining
      invariant forall key :: key in to.entries && to.entries[key] != null ==> fresh(to.entries[key])
      invariant Separate(to)
      invariant from != to ==>
        forall key :: key in to.entries ==> InnerView(to.entries[key]) == InnerView(from.entries[key])
    {
      var key :| key in remaining;
      var outVal := CopyRow(from.entries[key]);
      to.entries := to.entries[key := outVal];
      remaining := remaining - {key};
    }
  }

  /** One row; a nil row stays nil. */
  method CopyRow(inVal: PrivateData) returns (outVal: PrivateData)
    ensures InnerView(outVal) == InnerView(inVal) && (outVal == null <==> inVal == null)
    ensures outVal != null ==> fresh(outVal) && outVal.entries == inVal.entries
  {
    if inVal == null {
      outVal := null;
    } else {
      outVal := CopyEntries(inVal);
    }
  }

  method CopyEntries(inVal: MapCell<string>) returns (outVal: MapCell<string>)
    ensures fresh(outVal) && outVal.entries == inVal.entries
  {
    outVal := new MapCell<string>();
    var remaining := inVal.entries.Keys;
    while remaining != {}
      invariant remaining <= inVal.entries.Keys
      invariant outVal.entries == map key | key in inVal.entries && key !in remaining :: inVal.entries[key]
    {
      var key :| key in remaining;
      outVal.entries := outVal.entries[key := inVal.entries[key]];
      remaining := remaining - {key};
    }
  }

  // ---------- Later writes ----------

  /** What a holder of a table may do to it; a store into a nil map is skipped, since it would panic. */
  datatype Write =
    | Put(key: string, name: string, value: string)
    | Drop(key: string, name: string)
    | Install(key: string)
    | InstallNil(key: string)
    | Remove(key: string)

  function Effect(v: ECValue, w: Write): ECValue {
    match v
    case NilTable => v
    case Table(rows) =>
      match w
      case Put(key, name, value) =>
        if key in rows && rows[key].Entries? then ECValue.Table(rows[key := Entries(rows[key].entries[name := value])])
        else v
      case Drop(key, name) =>
        if key in rows && rows[key].Entries? then ECValue.Table(rows[key := Entries(rows[key].entries - {name})]) else v
      case Install(key) => ECValue.Table(rows[key := Entries(map[])])
      case InstallNil(key) => ECValue.Table(rows[key := NilMap])
      case Remove(key) => ECValue.Table(rows - {key})
  }

  /** Writing into an inner map. */
  method StoreRow(d: MapCell<PrivateData>, key: string, row: map<string, string>)
    requires key in d.entries && d.entries[key] != null
    modifies d.entries[key]
    ensures d.entries == old(d.entries)
    ensures Separate(d) ==> View(d) == ECValue.Table(old(View(d)).rows[key := Entries(row)])
  {
    d.entries[key].entries := row;
  }

  /** Storing another inner map, or nil, under a key. */
  method ReplaceRow(d: MapCell<PrivateData>, key: string, cell: PrivateData)
    requires cell != null ==> cell !in d.entries.Values
    modifies d
    ensures d.entries == old(d.entries)[key := cell] && InnerView(cell) == old(InnerView(cell))
    ensures old(Separate(d)) ==> Separate(d)
    ensures View(d) == ECValue.Table(old(View(d)).rows[key := InnerView(cell)])
  {
    d.entries := d.entries[key := cell];
    assert View(d).rows == old(View(d)).rows[key := InnerView(cell)];
  }

  method RemoveRow(d: MapCell<PrivateData>, key: string)
    modifies d
    ensures d.entries == old(d.entries) - {key}
    ensures old(Separate(d)) ==> Separate(d)
    ensures View(d) == ECValue.Table(old(View(d)).rows - {key})
  {
    d.entries := d.entries - {key};
    assert View(d).rows == old(View(d)).rows - {key};
  }

  method ApplyInside(d: MapCell<PrivateData>, w: Write)
    requires w.Put? || w.Drop?
    modifies Cells(d)
    ensures d.entries == old(d.entries)
    ensures Separate(d) ==> View(d) == Effect(old(View(d)), w)
  {
    if w.key in d.entries && d.entries[w.key] != null {
      var row := d.entries[w.key].entries;
      StoreRow(d, w.key, if w.Put? then row[w.name := w.value] else row - {w.name});
    }
  }

  method ApplyOutside(d: MapCell<PrivateData>, w: Write)
    requires !w.Put? && !w.Drop?
    modifies d
    ensures fresh(Cells(d) - old(Cells(d)))
    ensures old(Separate(d)) ==> Separate(d)
    ensures View(d) == Effect(old(View(d)), w)
  {
    match w
    case Install(key) =>
      var inner := new MapCell<string>();
      ReplaceRow(d, key, inner);
    case InstallNil(key) => ReplaceRow(d, key, null);
    case Remove(key) => RemoveRow(d, key);
  }

  method Apply(d: Table, w: Write)
    modifies Cells(d)
    ensures fresh(Cells(d) - old(Cells(d)))
    ensures old(Separate(d)) ==> Separate(d) && View(d) == Effect(old(View(d)), w)
  {
    if d != null {
      if w.Put? || w.Drop? {
        ApplyInside(d, w);
      } else {
        ApplyOutside(d, w);
      }
    }
  }

  /** A write through one of two holders. */
  datatype Turn = Turn(second: bool, write: Write)

  function All(v: ECValue, turns: seq<Turn>): ECValue {
    if turns == [] then v
    else Effect(All(v, turns[..|turns| - 1]), turns[|turns| - 1].write)
  }

  /** Only the writes made through one holder. */
  function Own(v: ECValue, turns: seq<Turn>, second: bool): ECValue {
    if turns == [] then v
    else
      var before := Own(v, turns[..|turns| - 1], second);
      if turns[|turns| - 1].second == second then Effect(before, turns[|turns| - 1].write) else before
  }

  /** Two holders of tables without a common cell take turns writing: each table ends up with exactly the writes made
      through it, unless two of its own keys share an inner map. */
  method TakeTurns(first: Table, second: Table, turns: seq<Turn>)
    requires Cells(first) !! Cells(second)
    modifies Cells(first), Cells(second)
    ensures old(Separate(first)) ==> View(first) == Own(old(View(first)), turns, false)
    ensures old(Separate(second)) ==> View(second) == Own(old(View(second)), turns, true)
  {
    for i := 0 to |turns|
      invariant Cells(first) !! Cells(second)
      invariant fresh(Cells(first) - old(Cells(first))) && fresh(Cells(second) - old(Cells(second)))
      invariant old(Separate(first)) ==> Separate(first) && View(first) == Own(old(View(first)), turns[..i], false)
      invariant old(Separate(second)) ==> Separate(second) && View(second) == Own(old(View(second)), turns[..i], true)
    {
      assert turns[..i + 1][..i] == turns[..i];
      if turns[i].second {
        Apply(second, turns[i].write);
      } else {
        Apply(first, turns[i].write);
      }
    }
    assert turns[..|turns|] == turns;
  }

  /** After a deep copy, the copy holds exactly the writes made through it, however the two holders take turns; so does
      the original, unless two of its own keys share an inner map. */
  method DeepCopyIsolates(original: NnfNodeECDataStatus, turns: seq<Turn>) returns (copy: NnfNodeECDataStatus)
    modifies Cells(original.data)
    ensures old(Separate(original.data)) ==> View(original.data) == Own(old(View(original.data)), turns, false)
    ensures View(copy.data) == Own(old(View(original.data)), turns, true)
  {
    copy := new NnfNodeECDataStatus();
    original.DeepCopyInto(copy);
    TakeTurns(original.data, copy.data, turns);
  }

  /** The generated conversion copies the map header only, so both holders see every write. */
  method Convert(in_: NnfNodeECDataStatus, out: NnfNodeECDataStatus)
    modifies out
    ensures out.data == old(in_.data)
  {
    out.data := in_.data;
  }

  method ConversionShares(original: NnfNodeECDataStatus, turns: seq<Turn>) returns (converted: NnfNodeECDataStatus)
    modifies Cells(original.data)
    ensures View(original.data) == View(converted.data)
    ensures old(Separate(original.data)) ==> View(original.data) == All(old(View(original.data)), turns)
  {
    converted := new NnfNodeECDataStatus();
    Convert(original, converted);
    var shared := original.data;
    for i := 0 to |turns|
      invariant original.data == shared == converted.data
      invariant fresh(Cells(shared) - old(Cells(original.data)))
      invariant old(Separate(original.data)) ==>
        Separate(shared) && View(shared) == All(old(View(original.data)), turns[..i])
    {
      assert turns[..i + 1][..i] == turns[..i];
      if turns[i].second {
        Apply(converted.data, turns[i].write);
      } else {
        Apply(original.data, turns[i].write);
      }
    }
    assert turns[..|turns|] == turns;
  }

  /** Sharing shows as soon as the other holder stores something new in an inner map. */
  lemma SharingShows(v: ECValue, key: string, name: string, value: string)
    requires v.Table? && key in v.rows && v.rows[key].Entries?
    ensures var turns := [Turn(true, Put(key, name, value))];
      All(v, turns) == Own(v, turns, false) <==> name in v.rows[key].entries && v.rows[key].entries[name] == value
  {
    var w := Put(key, name, value);
    var turns := [Turn(true, w)];
    assert turns[..0] == [];
    assert All(v, turns) == Effect(v, w) && Own(v, turns, false) == v;
    var row := v.rows[key].entries;
    assert Effect(v, w).rows[key] == Entries(row[name := value]);
    assert name in row && row[name] == value ==> row[name := value] == row;
    assert row[name := value] == row ==> name in row && row[name] == value by {
      assert row[name := value][name] == value;
    }
    assert v.rows[key] == Entries(row) && v.rows == v.rows[key := v.rows[key]];
  }

  /** The two agree for a holder as long as the other one writes nothing. */
  lemma {:induction false} AloneNothingDiffers(v: ECValue, turns: seq<Turn>, second: bool)
    requires forall t :: t in turns ==> t.second == second
    ensures Own(v, turns, second) == All(v, turns)
    ensures Own(v, turns, !second) == v
  {
    if turns != [] {
      AloneNothingDiffers(v, turns[..|turns| - 1], second);
    }
  }
}
