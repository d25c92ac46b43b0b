/** Storage profiles edited through all three versions, in any order and for any length of time. */
module StorageRuns {
  import opened GoValues
  import opened Annotations
  import V9 = StorageV9
  import V10 = StorageV10
  import V11 = StorageV11
  import C9 = StorageConversionV9
  import C10 = StorageConversionV10
  import L9 = StorageLawsV9

  type Hub = V11.ProfileData

  /** What a client of an old version does to the stash between reading and writing back. */
  datatype StashEdit = Keep | Drop | Corrupt | Replace(stash: Hub)

  datatype Edit =
    | HubEdit(f: Hub -> Hub)
    | V10Edit(f10: V10.ProfileData -> V10.ProfileData, stash: StashEdit)
    | V9Edit(f9: V9.ProfileData -> V9.ProfileData, stash: StashEdit)

  function EditedStash(s: Stash<Hub>, e: StashEdit): Stash<Hub> {
    match e
    case Keep => s
    case Drop => Missing
    case Corrupt => Malformed
    case Replace(r) => Restored(r)
  }

  /** What up-conversion finds in the annotation, given the stored profile the client had read. */
  function StashOf(h: Hub, e: StashEdit): Stash<Hub> {
    EditedStash(Restored(V11.Canon(h)), e)
  }

  /** One edit as the conversions carry it out: down, edit, up, store. A failed up-conversion stores nothing. */
  function StoredThroughV10(h: Hub, f: V10.ProfileData -> V10.ProfileData, e: StashEdit): Hub {
    var stash := StashOf(h, e);
    if stash.Malformed? then h else C10.Up(f(C10.Down(h)), StashedData(stash), V11.ZERO)
  }

  function StoredThroughV9(h: Hub, f: V9.ProfileData -> V9.ProfileData, e: StashEdit): Hub {
    var stash := StashOf(h, e);
    if stash.Malformed? then h else C9.Up(f(C9.Down(h)), StashedData(stash), V11.ZERO)
  }

  function Stored(h: Hub, e: Edit): Hub {
    match e
    case HubEdit(f) => f(h)
    case V10Edit(f, a) => StoredThroughV10(h, f, a)
    case V9Edit(f, a) => StoredThroughV9(h, f, a)
  }

  function Run(h: Hub, edits: seq<Edit>): Hub {
    if edits == [] then h else Stored(Run(h, edits[..|edits| - 1]), edits[|edits| - 1])
  }

  // ---------- The same edit on a single record ----------

  /** The hub-only half after an edit through v1alpha9: kept up to nil and empty, or what was put in the stash. */
  function KeptBy9(h: Hub, edited: V9.ProfileData, e: StashEdit): C9.HubOnly {
    match e
    case Keep => C9.Only(V11.Canon(h))
    case Replace(r) => C9.Only(r)
    case _ =>
      var target, section := C9.TargetOnly("", "", NilMap), C9.SharedOnly("", "", Nil, NilMap);
      var client := C9.ClientOnly("", "", Nil, NilMap);
      C9.HubOnly(
        C9.LustreOnly(edited.lustreStorage.capacityMDT, target, target, target, target, client),
        section, section, section)
  }

  function KeptBy10(h: Hub, e: StashEdit): C10.HubOnly {
    match e
    case Keep => C10.Only(V11.Canon(h))
    case Replace(r) => C10.Only(r)
    case _ => C10.HubOnly(Nil, Nil, Nil, Nil)
  }

  /** k is h with the edit made directly on the fields its version shows, and the other fields as the stash says. */
  predicate DirectEdit(h: Hub, e: Edit, k: Hub) {
    match e
    case HubEdit(f) => k == f(h)
    case V10Edit(f, Corrupt) => k == h
    case V9Edit(f, Corrupt) => k == h
    case V10Edit(f, a) => C10.Down(k) == f(C10.Down(h)) && C10.Only(k) == KeptBy10(h, a)
    case V9Edit(f, a) => C9.Down(k) == f(C9.Down(h)) && C9.Only(k) == KeptBy9(h, f(C9.Down(h)), a)
  }

  lemma UpThroughV9(h: Hub, s: V9.ProfileData, a: StashEdit)
    requires !a.Corrupt?
    ensures var k := C9.Up(s, StashedData(StashOf(h, a)), V11.ZERO);
      C9.Down(k) == s && C9.Only(k) == KeptBy9(h, s, a)
  {
    L9.DownAfterJoin(s, KeptBy9(h, s, a));
  }

  lemma UpThroughV10(h: Hub, s: V10.ProfileData, a: StashEdit)
    requires !a.Corrupt?
    ensures var k := C10.Up(s, StashedData(StashOf(h, a)), V11.ZERO);
      C10.Down(k) == s && C10.Only(k) == KeptBy10(h, a)
  {
    C10.DownAfterJoin(s, KeptBy10(h, a));
  }

  lemma ThroughV9IsDirect(h: Hub, f: V9.ProfileData -> V9.ProfileData, a: StashEdit)
    ensures DirectEdit(h, V9Edit(f, a), StoredThroughV9(h, f, a))
  {
    if !a.Corrupt? {
      UpThroughV9(h, f(C9.Down(h)), a);
    }
  }

  lemma ThroughV10IsDirect(h: Hub, f: V10.ProfileData -> V10.ProfileData, a: StashEdit)
    ensures DirectEdit(h, V10Edit(f, a), StoredThroughV10(h, f, a))
  {
    if !a.Corrupt? {
      UpThroughV10(h, f(C10.Down(h)), a);
    }
  }

  /** Each edit carried out by the conversions is the direct edit. */
  lemma StoredIsDirect(h: Hub, e: Edit)
    ensures DirectEdit(h, e, Stored(h, e))
  {
    match e
    case HubEdit(_) =>
    case V10Edit(f, a) => ThroughV10IsDirect(h, f, a);
    case V9Edit(f, a) => ThroughV9IsDirect(h, f, a);
  }

  lemma DirectEditIsUnique(h: Hub, e: Edit, k: Hub, l: Hub)
    requires DirectEdit(h, e, k) && DirectEdit(h, e, l)
    ensures k == l
  {
    match e
    case HubEdit(_) =>
    case V10Edit(_, _) =>
      C10.JoinOfParts(k);
      C10.JoinOfParts(l);
    case V9Edit(_, _) =>
      L9.JoinOfParts(k);
      L9.JoinOfParts(l);
  }

  /** A history of one record, each entry made from the one before by a direct edit. */
  predicate DirectHistory(history: seq<Hub>, h: Hub, edits: seq<Edit>) {
    && |history| == |edits| + 1 && history[0] == h
    && forall i :: 0 <= i < |edits| ==> DirectEdit(history[i], edits[i], history[i + 1])
  }

  /** Refinement: whatever the edits and their order, the record the conversions leave in storage is the one that
      direct edits of a single record lead to. DirectHistoryExists says that there is such a history. */
  lemma {:induction false} RunRefinesDirectEdits(h: Hub, edits: seq<Edit>, history: seq<Hub>)
    requires DirectHistory(history, h, edits)
    ensures history[|edits|] == Run(h, edits)
  {
    if edits != [] {
      var n := |edits| - 1;
      RunRefinesDirectEdits(h, edits[..n], history[..n + 1]);
      StoredIsDirect(history[n], edits[n]);
      DirectEditIsUnique(history[n], edits[n], history[n + 1], Stored(history[n], edits[n]));
    }
  }

  lemma {:induction false} DirectHistoryExists(h: Hub, edits: seq<Edit>) returns (history: seq<Hub>)
    ensures DirectHistory(history, h, edits)
  {
    if edits == [] {
      history := [h];
    } else {
      var n := |edits| - 1;
      var before := DirectHistoryExists(h, edits[..n]);
      var k := Stored(before[n], edits[n]);
      StoredIsDirect(before[n], edits[n]);
      HistorySnoc(before, h, edits, k);
      history := before + [k];
    }
  }

  lemma HistorySnoc(before: seq<Hub>, h: Hub, edits: seq<Edit>, k: Hub)
    requires edits != [] && DirectHistory(before, h, edits[..|edits| - 1])
    requires DirectEdit(before[|edits| - 1], edits[|edits| - 1], k)
    ensures DirectHistory(before + [k], h, edits)
  {
    var history, n := before + [k], |edits| - 1;
    forall i | 0 <= i < |edits| ensures DirectEdit(history[i], edits[i], history[i + 1]) {
      if i < n {
        assert history[i] == before[i] && history[i + 1] == before[i + 1] && edits[i] == edits[..n][i];
      }
    }
  }

  // ---------- Hub-only fields change only by hub edits ----------

  /** The normalised v1alpha9-hidden half depends on that half alone. */
  lemma CanonOnly9(h: Hub, k: Hub)
    requires C9.Only(k) == C9.Only(V11.Canon(h))
    ensures C9.Only(V11.Canon(k)) == C9.Only(V11.Canon(h))
  {}

  lemma CanonOnly10(h: Hub, k: Hub)
    requires C10.Only(k) == C10.Only(V11.Canon(h))
    ensures C10.Only(V11.Canon(k)) == C10.Only(V11.Canon(h))
  {}

  ghost predicate OnlyV9Edits(edits: seq<Edit>) {
    forall e :: e in edits ==> e.V9Edit? && e.stash == Keep
  }

  ghost predicate OnlySpokeEdits(edits: seq<Edit>) {
    forall e :: e in edits ==> !e.HubEdit? && e.stash == Keep
  }

  /** After any number of v1alpha9 edits, everything v1alpha9 cannot show is as it was, up to nil and empty. */
  lemma {:induction false} V9EditsKeepTheHiddenHalf(h: Hub, edits: seq<Edit>)
    requires OnlyV9Edits(edits)
    ensures C9.Only(V11.Canon(Run(h, edits))) == C9.Only(V11.Canon(h))
  {
    if edits != [] {
      var n := |edits| - 1;
      assert edits[n] in edits;
      assert OnlyV9Edits(edits[..n]);
      V9EditsKeepTheHiddenHalf(h, edits[..n]);
      var before := Run(h, edits[..n]);
      StoredIsDirect(before, edits[n]);
      CanonOnly9(before, Stored(before, edits[n]));
    }
  }

  lemma HiddenFrom10IsHiddenFrom9(h: Hub, k: Hub)
    requires C9.Only(h) == C9.Only(k)
    ensures C10.Only(h) == C10.Only(k)
  {}

  /** After any mixture of v1alpha9 and v1alpha10 edits, the fields that only the hub has are as they were. */
  lemma {:induction false} SpokeEditsKeepHubOnlyFields(h: Hub, edits: seq<Edit>)
    requires OnlySpokeEdits(edits)
    ensures C10.Only(V11.Canon(Run(h, edits))) == C10.Only(V11.Canon(h))
  {
    if edits != [] {
      var n := |edits| - 1;
      assert edits[n] in edits;
      assert OnlySpokeEdits(edits[..n]);
      SpokeEditsKeepHubOnlyFields(h, edits[..n]);
      var before := Run(h, edits[..n]);
      StoredIsDirect(before, edits[n]);
      if edits[n].V9Edit? {
        HiddenFrom10IsHiddenFrom9(Stored(before, edits[n]), V11.Canon(before));
      }
      CanonOnly10(before, Stored(before, edits[n]));
    }
  }

  // ---------- From one spoke to the other and back ----------

  /** The fields v1alpha10 shows and v1alpha9 restores from JSON. */
  predicate OverridesAreCanonical(s: V10.ProfileData) {
    var l := s.lustreStorage;
    && l.mgtOptions.target.variableOverride == l.mgtOptions.target.variableOverride.Canon()
    && l.mdtOptions.target.variableOverride == l.mdtOptions.target.variableOverride.Canon()
    && l.mgtMdtOptions.target.variableOverride == l.mgtMdtOptions.target.variableOverride.Canon()
    && l.ostOptions.target.variableOverride == l.ostOptions.target.variableOverride.Canon()
    && l.clientOptions.variableOverride == l.clientOptions.variableOverride.Canon()
    && s.gfs2Storage.variableOverride == s.gfs2Storage.variableOverride.Canon()
    && s.xfsStorage.variableOverride == s.xfsStorage.variableOverride.Canon()
    && s.rawStorage.variableOverride == s.rawStorage.variableOverride.Canon()
  }

  /** v1alpha10 to hub to v1alpha9 to hub to v1alpha10: the two hub stops agree up to nil and empty, and the profile
      comes back exactly if none of its override maps is empty without being nil. */
  lemma CrossSpokeTrip(s: V10.ProfileData, stash: Option<Hub>, dst: Hub)
    ensures var h1 := C10.Up(s, stash, dst);
      var h2 := C9.Up(C9.Down(h1), Some(V11.Canon(h1)), dst);
      && V11.Canon(h1) == V11.Canon(h2)
      && (C10.Down(h2) == s <==> OverridesAreCanonical(s))
  {
    var h1 := C10.Up(s, stash, dst);
    var h2 := C9.Up(C9.Down(h1), Some(V11.Canon(h1)), dst);
    L9.HubRoundTrip(h1, dst);
    C10.DownAfterUp(s, stash, dst);
    SecondStop(h1, h2);
  }

  /** What the trip through v1alpha9 does to a hub profile, as v1alpha10 sees it. */
  lemma SecondStop(h1: Hub, h2: Hub)
    requires h2 == C9.Join(C9.Down(h1), C9.Only(V11.Canon(h1)))
    ensures C10.Down(h2) == C10.Down(h1) <==> OverridesAreCanonical(C10.Down(h1))
  {
    var l1, l2 := h1.lustreStorage, h2.lustreStorage;
    assert C10.DownLustre(l2) == C10.DownLustre(l1) <==>
      && l1.mgtOptions.target.variableOverride == l1.mgtOptions.target.variableOverride.Canon()
      && l1.mdtOptions.target.variableOverride == l1.mdtOptions.target.variableOverride.Canon()
      && l1.mgtMdtOptions.target.variableOverride == l1.mgtMdtOptions.target.variableOverride.Canon()
      && l1.ostOptions.target.variableOverride == l1.ostOptions.target.variableOverride.Canon()
      && l1.clientOptions.variableOverride == l1.clientOptions.variableOverride.Canon();
    SharedSecondStop(h1.gfs2Storage, h2.gfs2Storage);
    SharedSecondStop(h1.xfsStorage, h2.xfsStorage);
    SharedSecondStop(h1.rawStorage, h2.rawStorage);
  }

  lemma SharedSecondStop(d1: V11.SharedData, d2: V11.SharedData)
    requires d2 == C9.JoinShared(C9.DownShared(d1), C9.OnlyShared(V11.CanonShared(d1)))
    ensures C10.DownShared(d2) == C10.DownShared(d1) <==> d1.variableOverride == d1.variableOverride.Canon()
  {}

  // ---------- The same edits on objects ----------

  /** What the client does to the object it has read. */
  method EditObject<D>(spoke: Object<D, Hub>, f: D -> D, e: StashEdit)
    requires spoke.annotations != null
    modifies spoke`data, spoke.annotations
    ensures spoke.data == f(old(spoke.data))
    ensures StashIn(spoke.annotations) == EditedStash(old(StashIn(spoke.annotations)), e)
    ensures spoke.annotations.entries - {DATA_ANNOTATION} == old(spoke.annotations.entries) - {DATA_ANNOTATION}
  {
    spoke.data := f(spoke.data);
    var cell := spoke.annotations;
    match e
    case Keep =>
    case Drop => cell.entries := cell.entries - {DATA_ANNOTATION};
    case Corrupt => cell.entries := cell.entries[DATA_ANNOTATION := Plain("")];
    case Replace(r) => cell.entries := cell.entries[DATA_ANNOTATION := Json(r)];
  }

  method ReadThroughV9(stored: C9.Hub) returns (spoke: C9.Spoke)
    modifies stored.annotations
    ensures fresh(spoke) && stored.data == old(stored.data) && stored.annotations == old(stored.annotations)
    ensures spoke.data == C9.Down(stored.data) && StashIn(spoke.annotations) == StashOf(stored.data, Keep)
    ensures if stored.annotations == null then fresh(spoke.annotations) else spoke.annotations == stored.annotations
    ensures spoke.annotations.entries - {DATA_ANNOTATION} ==
      (if stored.annotations == null then map[] else old(stored.annotations.entries) - {DATA_ANNOTATION})
  {
    spoke := new Object("", "", null, C9.Down(V11.ZERO));
    C9.ConvertFrom(spoke, stored);
  }

  method EditedSpokeV9(stored: C9.Hub, f: V9.ProfileData -> V9.ProfileData, e: StashEdit) returns (spoke: C9.Spoke)
    modifies stored.annotations
    ensures fresh(spoke) && stored.data == old(stored.data) && stored.annotations == old(stored.annotations)
    ensures spoke.data == f(C9.Down(stored.data)) && StashIn(spoke.annotations) == StashOf(stored.data, e)
    ensures if stored.annotations == null then fresh(spoke.annotations) else spoke.annotations == stored.annotations
    ensures spoke.annotations.entries - {DATA_ANNOTATION} ==
      (if stored.annotations == null then map[] else old(stored.annotations.entries) - {DATA_ANNOTATION})
  {
    spoke := ReadThroughV9(stored);
    EditObject(spoke, f, e);
  }

  method WriteBackV9(
      spoke: C9.Spoke, ghost h: Hub, ghost f: V9.ProfileData -> V9.ProfileData, ghost e: StashEdit)
      returns (ok: bool, written: C9.Hub)
    requires spoke.annotations != null
    requires spoke.data == f(C9.Down(h)) && StashIn(spoke.annotations) == StashOf(h, e)
    modifies spoke.annotations
    ensures fresh(written) && spoke.annotations == old(spoke.annotations)
    ensures ok == !e.Corrupt? && (if ok then written.data else h) == StoredThroughV9(h, f, e)
    ensures written.annotations == spoke.annotations
    ensures ok ==> spoke.annotations.entries == old(spoke.annotations.entries) - {DATA_ANNOTATION}
  {
    written := new Object("", "", null, V11.ZERO);
    ok := C9.ConvertTo(spoke, written);
  }

  /** Reading a stored object through v1alpha9, editing it and writing it back is the step of the run. The stash passes
      through the stored object's own annotation map, and after a success it is gone from there, whether or not it
      was there before; the other annotations stay. */
  method EditThroughV9(stored: C9.Hub, f: V9.ProfileData -> V9.ProfileData, e: StashEdit)
      returns (ok: bool, written: C9.Hub)
    modifies stored.annotations
    ensures fresh(written) && stored.data == old(stored.data) && stored.annotations == old(stored.annotations)
    ensures ok == !e.Corrupt?
    ensures (if ok then written.data else stored.data) == StoredThroughV9(stored.data, f, e)
    ensures ok && stored.annotations != null ==>
      && written.annotations == stored.annotations
      && stored.annotations.entries == old(stored.annotations.entries) - {DATA_ANNOTATION}
    ensures ok && stored.annotations == null ==> written.annotations != null && written.annotations.entries == map[]
  {
    var spoke := EditedSpokeV9(stored, f, e);
    ok, written := WriteBackV9(spoke, stored.data, f, e);
  }

  method ReadThroughV10(stored: C10.Hub) returns (spoke: C10.Spoke)
    modifies stored.annotations
    ensures fresh(spoke) && stored.data == old(stored.data) && stored.annotations == old(stored.annotations)
    ensures spoke.data == C10.Down(stored.data) && StashIn(spoke.annotations) == StashOf(stored.data, Keep)
    ensures if stored.annotations == null then fresh(spoke.annotations) else spoke.annotations == stored.annotations
    ensures spoke.annotations.entries - {DATA_ANNOTATION} ==
      (if stored.annotations == null then map[] else old(stored.annotations.entries) - {DATA_ANNOTATION})
  {
    spoke := new Object("", "", null, C10.Down(V11.ZERO));
    C10.ConvertFrom(spoke, stored);
  }

  method EditedSpokeV10(stored: C10.Hub, f: V10.ProfileData -> V10.ProfileData, e: StashEdit) returns (spoke: C10.Spoke)
    modifies stored.annotations
    ensures fresh(spoke) && stored.data == old(stored.data) && stored.annotations == old(stored.annotations)
    ensures spoke.data == f(C10.Down(stored.data)) && StashIn(spoke.annotations) == StashOf(stored.data, e)
    ensures if stored.annotations == null then fresh(spoke.annotations) else spoke.annotations == stored.annotations
    ensures spoke.annotations.entries - {DATA_ANNOTATION} ==
      (if stored.annotations == null then map[] else old(stored.annotations.entries) - {DATA_ANNOTATION})
  {
    spoke := ReadThroughV10(stored);
    EditObject(spoke, f, e);
  }

  method WriteBackV10(
      spoke: C10.Spoke, ghost h: Hub, ghost f: V10.ProfileData -> V10.ProfileData, ghost e: StashEdit)
      returns (ok: bool, written: C10.Hub)
    requires spoke.annotations != null
    requires spoke.data == f(C10.Down(h)) && StashIn(spoke.annotations) == StashOf(h, e)
    modifies spoke.annotations
    ensures fresh(written) && spoke.annotations == old(spoke.annotations)
    ensures ok == !e.Corrupt? && (if ok then written.data else h) == StoredThroughV10(h, f, e)
    ensures written.annotations == spoke.annotations
    ensures ok ==> spoke.annotations.entries == old(spoke.annotations.entries) - {DATA_ANNOTATION}
  {
    written := new Object("", "", null, V11.ZERO);
    ok := C10.ConvertTo(spoke, written);
  }

  /** The same through v1alpha10. */
  method EditThroughV10(stored: C10.Hub, f: V10.ProfileData -> V10.ProfileData, e: StashEdit)
      returns (ok: bool, written: C10.Hub)
    modifies stored.annotations
    ensures fresh(written) && stored.data == old(stored.data) && stored.annotations == old(stored.annotations)
    ensures ok == !e.Corrupt?
    ensures (if ok then written.data else stored.data) == StoredThroughV10(stored.data, f, e)
    ensures ok && stored.annotations != null ==>
      && written.annotations == stored.annotations
      && stored.annotations.entries == old(stored.annotations.entries) - {DATA_ANNOTATION}
    ensures ok && stored.annotations == null ==> written.annotations != null && written.annotations.entries == map[]
  {
    var spoke := EditedSpokeV10(stored, f, e);
    ok, written := WriteBackV10(spoke, stored.data, f, e);
  }
}
