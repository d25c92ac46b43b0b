/** Lists of profiles: the generated loops convert item by item and know nothing of the stash. */
module ProfileLists {
  import opened GoValues
  import opened Annotations
  import Containers = ContainerProfiles
  import Storage = StorageConversionV10
  import V10 = StorageV10
  import V11 = StorageV11

  /** A profile inside a list: a struct value whose annotation map is a reference. */
  datatype Item<D, H> = Item(name: string, namespace: string, annotations: MapCell?<Text<H>>, data: D)

  datatype List<D, H> = List(listMeta: string, items: array?<Item<D, H>>)

  type ContainerItem = Item<Containers.SpokeData, Containers.HubData>
  type ContainerHubItem = Item<Containers.HubData, Containers.HubData>
  type StorageItem = Item<V10.ProfileData, V11.ProfileData>
  type StorageHubItem = Item<V11.ProfileData, V11.ProfileData>

  // ---------- Item by item ----------

  function WithData<D, E, H>(i: Item<D, H>, data: E): Item<E, H> {
    Item(i.name, i.namespace, i.annotations, data)
  }

  function ContainerUp(i: ContainerItem): ContainerHubItem {
    WithData(i, Containers.Join(i.data, false))
  }

  function ContainerDown(i: ContainerHubItem): ContainerItem {
    WithData(i, Containers.Down(i.data))
  }

  const NO_HUB_FIELDS := Storage.HubOnly(Nil, Nil, Nil, Nil)

  function StorageUp(i: StorageItem): StorageHubItem {
    WithData(i, Storage.Join(i.data, NO_HUB_FIELDS))
  }

  function StorageDown(i: StorageHubItem): StorageItem {
    WithData(i, Storage.Down(i.data))
  }

  predicate HasNoHubFields(h: V11.ProfileData) {
    && h.gfs2Storage.userCommands.postTeardown == Nil
    && h.xfsStorage.userCommands.postTeardown == Nil
    && h.rawStorage.userCommands.postTeardown == Nil
    && h.lustreStorage.clientOptions.cmdLines.rabbitPostTeardown == Nil
  }

  function MapSlice<A, B>(f: A -> B, s: Slice<A>): Slice<B> {
    match s
    case Nil => Nil
    case Elems(items) => Elems(seq(|items|, i requires 0 <= i < |items| => f(items[i])))
  }

  /** The metadata of an item stays with it: name, namespace and the very same annotation map. */
  predicate SameMeta<D, E, H>(i: Item<D, H>, j: Item<E, H>) {
    j.name == i.name && j.namespace == i.namespace && j.annotations == i.annotations
  }

  // ---------- The loops ----------

  method ContainersToHub(in_: List<Containers.SpokeData, Containers.HubData>)
      returns (out: List<Containers.HubData, Containers.HubData>)
    ensures out.listMeta == in_.listMeta
    ensures SliceOf(out.items) == MapSlice(ContainerUp, SliceOf(in_.items))
    ensures out.items == null <==> in_.items == null
    ensures out.items != null ==> out.items.Length == in_.items.Length
    ensures out.items != null ==> forall k :: 0 <= k < out.items.Length ==>
      SameMeta(in_.items[k], out.items[k]) && out.items[k].data == Containers.Join(in_.items[k].data, false)
    ensures out.items != null ==> fresh(out.items)
  {
    if in_.items == null { return List(in_.listMeta, null); }
    var zero: ContainerHubItem := Item("", "", null, Containers.ZERO);
    var items := new ContainerHubItem[in_.items.Length](_ => zero);
    for i := 0 to items.Length
      invariant forall k :: 0 <= k < i ==> items[k] == ContainerUp(in_.items[k])
      invariant forall k :: i <= k < items.Length ==> items[k] == zero
    {
      var data := Containers.ConvertDataToHub(in_.items[i].data, items[i].data);
      items[i] := WithData(in_.items[i], data);
    }
    out := List(in_.listMeta, items);
  }

  method ContainersFromHub(in_: List<Containers.HubData, Containers.HubData>)
      returns (out: List<Containers.SpokeData, Containers.HubData>)
    ensures out.listMeta == in_.listMeta
    ensures SliceOf(out.items) == MapSlice(ContainerDown, SliceOf(in_.items))
    ensures out.items == null <==> in_.items == null
    ensures out.items != null ==> out.items.Length == in_.items.Length
    ensures out.items != null ==> forall k :: 0 <= k < out.items.Length ==>
      SameMeta(in_.items[k], out.items[k]) && out.items[k].data == Containers.Down(in_.items[k].data)
    ensures out.items != null ==> fresh(out.items)
  {
    if in_.items == null { return List(in_.listMeta, null); }
    var zero: ContainerItem := Item("", "", null, Containers.Down(Containers.ZERO));
    var items := new ContainerItem[in_.items.Length](_ => zero);
    for i := 0 to items.Length
      invariant forall k :: 0 <= k < i ==> items[k] == ContainerDown(in_.items[k])
    {
      var data := Containers.ConvertDataFromHub(in_.items[i].data, items[i].data);
      items[i] := WithData(in_.items[i], data);
    }
    out := List(in_.listMeta, items);
  }

  method StoragesToHub(in_: List<V10.ProfileData, V11.ProfileData>)
      returns (out: List<V11.ProfileData, V11.ProfileData>)
    ensures out.listMeta == in_.listMeta
    ensures SliceOf(out.items) == MapSlice(StorageUp, SliceOf(in_.items))
    ensures out.items == null <==> in_.items == null
    ensures out.items != null ==> out.items.Length == in_.items.Length
    ensures out.items != null ==> forall k :: 0 <= k < out.items.Length ==>
      SameMeta(in_.items[k], out.items[k]) && out.items[k].data == Storage.Join(in_.items[k].data, NO_HUB_FIELDS)
    ensures out.items != null ==> fresh(out.items)
  {
    if in_.items == null { return List(in_.listMeta, null); }
    var zero: StorageHubItem := Item("", "", null, V11.ZERO);
    ZeroHasNoHubFields();
    var items := new StorageHubItem[in_.items.Length](_ => zero);
    FillStorages(in_.items, items);
    out := List(in_.listMeta, items);
  }

  method FillStorages(in_: array<StorageItem>, items: array<StorageHubItem>)
    requires in_.Length == items.Length && forall k :: 0 <= k < items.Length ==> HasNoHubFields(items[k].data)
    modifies items
    ensures forall k :: 0 <= k < items.Length ==> items[k] == StorageUp(in_[k])
  {
    for i := 0 to items.Length
      invariant forall k :: 0 <= k < i ==> items[k] == StorageUp(in_[k])
      invariant forall k :: i <= k < items.Length ==> HasNoHubFields(items[k].data)
    {
      items[i] := ConvertStorageItem(in_[i], items[i]);
    }
  }

  lemma ZeroHasNoHubFields()
    ensures HasNoHubFields(V11.ZERO)
  {}

  method ConvertStorageItem(in_: StorageItem, out: StorageHubItem) returns (r: StorageHubItem)
    requires HasNoHubFields(out.data)
    ensures r == StorageUp(in_)
  {
    assert Storage.Only(out.data) == NO_HUB_FIELDS;
    var data := Storage.ConvertDataTo11(in_.data, out.data);
    Storage.DownAfterUp(in_.data, None, out.data);
    r := WithData(in_, data);
  }

  method StoragesFromHub(in_: List<V11.ProfileData, V11.ProfileData>)
      returns (out: List<V10.ProfileData, V11.ProfileData>)
    ensures out.listMeta == in_.listMeta
    ensures SliceOf(out.items) == MapSlice(StorageDown, SliceOf(in_.items))
    ensures out.items == null <==> in_.items == null
    ensures out.items != null ==> out.items.Length == in_.items.Length
    ensures out.items != null ==> forall k :: 0 <= k < out.items.Length ==>
      SameMeta(in_.items[k], out.items[k]) && out.items[k].data == Storage.Down(in_.items[k].data)
    ensures out.items != null ==> fresh(out.items)
  {
    if in_.items == null { return List(in_.listMeta, null); }
    var zero: StorageItem := Item("", "", null, Storage.Down(V11.ZERO));
    var items := new StorageItem[in_.items.Length](_ => zero);
    for i := 0 to items.Length
      invariant forall k :: 0 <= k < i ==> items[k] == StorageDown(in_.items[k])
    {
      var data := Storage.ConvertDataTo10(in_.items[i].data, items[i].data);
      items[i] := WithData(in_.items[i], data);
    }
    out := List(in_.listMeta, items);
  }

  // ---------- Laws ----------

  lemma MappedTwice<A, B>(f: A -> B, g: B -> A, h: A -> A, s: Slice<A>)
    requires forall k :: 0 <= k < |s.List()| ==> g(f(s.List()[k])) == h(s.List()[k])
    ensures MapSlice(g, MapSlice(f, s)) == MapSlice(h, s)
  {
    if s.Elems? {
      var there := MapSlice(f, s).elems;
      var back, direct := MapSlice(g, MapSlice(f, s)).elems, MapSlice(h, s).elems;
      forall k | 0 <= k < |s.elems| ensures back[k] == direct[k] {
        assert there[k] == f(s.List()[k]) && back[k] == g(there[k]) && direct[k] == h(s.List()[k]);
      }
      assert back == direct;
    }
  }

  lemma MappedThereAndBack<A, B>(f: A -> B, g: B -> A, s: Slice<A>)
    ensures MapSlice(g, MapSlice(f, s)) == s <==> forall k :: 0 <= k < |s.List()| ==> g(f(s.List()[k])) == s.List()[k]
  {
    var back := MapSlice(g, MapSlice(f, s));
    assert forall k :: 0 <= k < |s.List()| ==> back.List()[k] == g(f(s.List()[k]));
    if forall k :: 0 <= k < |s.List()| ==> g(f(s.List()[k])) == s.List()[k] {
      assert back.List() == s.List();
    }
  }

  /** Up and down again, a list of any length comes back exactly: items, order, and nil or not. */
  lemma ListsComeBack(cs: Slice<ContainerItem>, ss: Slice<StorageItem>)
    ensures MapSlice(ContainerDown, MapSlice(ContainerUp, cs)) == cs
    ensures MapSlice(StorageDown, MapSlice(StorageUp, ss)) == ss
  {
    forall s: StorageItem ensures StorageDown(StorageUp(s)) == s {
      Storage.DownAfterJoin(s.data, NO_HUB_FIELDS);
    }
    MappedThereAndBack(ContainerUp, ContainerDown, cs);
    MappedThereAndBack(StorageUp, StorageDown, ss);
  }

  function ContainerReset(i: ContainerHubItem): ContainerHubItem {
    i.(data := i.data.(createContainer := false))
  }

  /** Down and up again resets the hub-only fields of every item and nothing else. */
  lemma ContainerHubListsAreReset(cs: Slice<ContainerHubItem>)
    ensures MapSlice(ContainerUp, MapSlice(ContainerDown, cs)) == MapSlice(ContainerReset, cs)
  {
    MappedTwice(ContainerDown, ContainerUp, ContainerReset, cs);
  }

  lemma StorageHubListsAreReset(ss: Slice<StorageHubItem>)
    ensures var back := MapSlice(StorageUp, MapSlice(StorageDown, ss));
      && back.Nil? == ss.Nil?
      && |back.List()| == |ss.List()|
      && forall k :: 0 <= k < |ss.List()| ==>
        && HasNoHubFields(back.List()[k].data)
        && StorageDown(back.List()[k]) == StorageDown(ss.List()[k])
  {
    forall s: StorageItem ensures HasNoHubFields(StorageUp(s).data) && StorageDown(StorageUp(s)) == s {
      Storage.DownAfterJoin(s.data, NO_HUB_FIELDS);
    }
  }

  /** A hub list comes back unchanged exactly if no item sets a hub-only field. */
  lemma ContainerHubListsComeBackIff(cs: Slice<ContainerHubItem>)
    ensures MapSlice(ContainerUp, MapSlice(ContainerDown, cs)) == cs <==>
      forall k :: 0 <= k < |cs.List()| ==> !cs.List()[k].data.createContainer
  {
    MappedThereAndBack(ContainerDown, ContainerUp, cs);
  }

  lemma StorageItemComesBackIff(s: StorageHubItem)
    ensures StorageUp(StorageDown(s)) == s <==> HasNoHubFields(s.data)
  {
    Storage.JoinOfParts(s.data);
    Storage.DownAfterJoin(Storage.Down(s.data), NO_HUB_FIELDS);
  }

  lemma StorageHubListsComeBackIff(ss: Slice<StorageHubItem>)
    ensures MapSlice(StorageUp, MapSlice(StorageDown, ss)) == ss <==>
      forall k :: 0 <= k < |ss.List()| ==> HasNoHubFields(ss.List()[k].data)
  {
    MappedThereAndBack(StorageDown, StorageUp, ss);
    forall k | 0 <= k < |ss.List()|
      ensures StorageUp(StorageDown(ss.List()[k])) == ss.List()[k] <==> HasNoHubFields(ss.List()[k].data)
    {
      StorageItemComesBackIff(ss.List()[k]);
    }
  }

  /** An item converts in a list as it does as an object exactly if its stash sets no hub-only field; a container
      profile without a stash never does, because there ConvertTo assumes that containers are created. */
  lemma ListsIgnoreTheStash(
      c: ContainerItem, cStash: Option<Containers.HubData>, s: StorageItem, sStash: Option<V11.ProfileData>)
    ensures ContainerUp(c).data == Containers.Up(c.data, cStash) <==> cStash.Some? && !cStash.value.createContainer
    ensures StorageUp(s).data == Storage.Up(s.data, sStash, V11.ZERO) <==> sStash.Some? ==> HasNoHubFields(sStash.value)
  {
    var restored := if sStash.Some? then sStash.value else V11.ZERO;
    Storage.DownAfterJoin(s.data, NO_HUB_FIELDS);
    Storage.DownAfterJoin(s.data, Storage.Only(restored));
  }
}
