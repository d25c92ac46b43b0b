/** Container profiles: their data in the hub and the spokes, conversion and admission. */
module ContainerProfiles {
  import opened GoValues
  import opened Annotations
  import opened Admission
  import Regex = CopyOffloadRegex

  /** A Kubernetes value that is only ever copied whole: a volume, a probe, an environment entry, a secret name. What it
      encodes to, and whether decoding that gives the same value again. It does not if a list or map inside is empty
      without being nil, or a quantity is written otherwise than its encoder writes it. */
  datatype CoreValue = CoreValue(encoding: string, settled: bool)

  datatype Container = Container(
    name: string, image: string, command: Strings, args: Strings, env: Slice<CoreValue>, envFrom: Slice<CoreValue>,
    volumeMounts: Slice<CoreValue>, workingDir: string, restartPolicy: Option<string>, livenessProbe: Option<CoreValue>,
    readinessProbe: Option<CoreValue>, startupProbe: Option<CoreValue>, terminationMessagePath: string,
    terminationMessagePolicy: string, imagePullPolicy: string)

  datatype PodSpec = PodSpec(
    containers: Slice<Container>, initContainers: Slice<Container>, volumes: Slice<CoreValue>,
    terminationGracePeriodSeconds: Option<int>, shareProcessNamespace: Option<bool>,
    imagePullSecrets: Slice<CoreValue>, automountServiceAccountToken: Option<bool>)

  datatype MPISpec = MPISpec(launcher: PodSpec, worker: PodSpec, copyOffload: bool, slotsPerWorker: Option<int>)

  datatype StorageMount = StorageMount(name: string, optional: bool, pvcMode: string)

  /** v1alpha11. */
  datatype HubData = HubData(
    pinned: bool, createContainer: bool, storages: Slice<StorageMount>, preRunTimeoutSeconds: Option<int>,
    postRunTimeoutSeconds: Option<int>, retryLimit: int, userID: Option<int>, groupID: Option<int>, numPorts: int,
    spec: Option<PodSpec>, mpiSpec: Option<MPISpec>)

  /** v1alpha10 and v1alpha9, which agree. */
  datatype SpokeData = SpokeData(
    pinned: bool, storages: Slice<StorageMount>, preRunTimeoutSeconds: Option<int>, postRunTimeoutSeconds: Option<int>,
    retryLimit: int, userID: Option<int>, groupID: Option<int>, numPorts: int, spec: Option<PodSpec>,
    mpiSpec: Option<MPISpec>)

  const ZERO := HubData(false, false, Nil, None, None, 0, None, None, 0, None, None)

  // ---------- JSON: `containers` and `command` lack omitempty, so they come back exactly ----------

  function CanonCore(v: CoreValue): CoreValue {
    v.(settled := true)
  }

  function CanonProbe(v: Option<CoreValue>): Option<CoreValue> {
    if v.Some? then Some(CanonCore(v.value)) else None
  }

  function CanonCores(s: Slice<CoreValue>): Slice<CoreValue> {
    if |s.List()| == 0 then Nil else Elems(seq(|s.elems|, i requires 0 <= i < |s.elems| => CanonCore(s.elems[i])))
  }

  function CanonContainer(c: Container): Container {
    c.(args := c.args.Canon(), env := CanonCores(c.env), envFrom := CanonCores(c.envFrom),
       volumeMounts := CanonCores(c.volumeMounts), livenessProbe := CanonProbe(c.livenessProbe),
       readinessProbe := CanonProbe(c.readinessProbe), startupProbe := CanonProbe(c.startupProbe))
  }

  function CanonContainers(s: Slice<Container>): Slice<Container> {
    match s
    case Nil => Nil
    case Elems(cs) => Elems(seq(|cs|, i requires 0 <= i < |cs| => CanonContainer(cs[i])))
  }

  function CanonPod(p: PodSpec): PodSpec {
    p.(containers := CanonContainers(p.containers),
       initContainers := CanonContainers(p.initContainers).Canon(),
       volumes := CanonCores(p.volumes),
       imagePullSecrets := CanonCores(p.imagePullSecrets))
  }

  function CanonMPI(m: MPISpec): MPISpec {
    m.(launcher := CanonPod(m.launcher), worker := CanonPod(m.worker))
  }

  function CanonSpec(s: Option<PodSpec>): Option<PodSpec> {
    if s.Some? then Some(CanonPod(s.value)) else None
  }

  function CanonMPISpec(s: Option<MPISpec>): Option<MPISpec> {
    if s.Some? then Some(CanonMPI(s.value)) else None
  }

  function CanonHub(h: HubData): HubData {
    h.(storages := h.storages.Canon(), spec := CanonSpec(h.spec), mpiSpec := CanonMPISpec(h.mpiSpec))
  }

  function CanonSpoke(s: SpokeData): SpokeData {
    s.(storages := s.storages.Canon(), spec := CanonSpec(s.spec), mpiSpec := CanonMPISpec(s.mpiSpec))
  }

  // ---------- Conversion ----------

  function Join(s: SpokeData, createContainer: bool): HubData {
    HubData(
      s.pinned, createContainer, s.storages, s.preRunTimeoutSeconds, s.postRunTimeoutSeconds, s.retryLimit, s.userID,
      s.groupID, s.numPorts, s.spec, s.mpiSpec)
  }

  function Down(h: HubData): SpokeData {
    SpokeData(
      h.pinned, h.storages, h.preRunTimeoutSeconds, h.postRunTimeoutSeconds, h.retryLimit, h.userID, h.groupID,
      h.numPorts, h.spec, h.mpiSpec)
  }

  /** Without a stash the old versions' habit of always creating containers is assumed. */
  function Up(s: SpokeData, stash: Option<HubData>): HubData {
    Join(s, stash.Some? ==> stash.value.createContainer)
  }

  method ConvertDataToHub(src: SpokeData, out: HubData) returns (d: HubData)
    ensures d == Join(src, out.createContainer)
  {
    d := out.(pinned := src.pinned);
    d := d.(storages := src.storages);
    d := d.(preRunTimeoutSeconds := src.preRunTimeoutSeconds);
    d := d.(postRunTimeoutSeconds := src.postRunTimeoutSeconds);
    d := d.(retryLimit := src.retryLimit);
    d := d.(userID := src.userID);
    d := d.(groupID := src.groupID);
    d := d.(numPorts := src.numPorts);
    d := d.(spec := src.spec);
    d := d.(mpiSpec := src.mpiSpec);
  }

  method ConvertDataFromHub(src: HubData, out: SpokeData) returns (d: SpokeData)
    ensures d == Down(src)
  {
    d := out.(pinned := src.pinned);
    d := d.(storages := src.storages);
    d := d.(preRunTimeoutSeconds := src.preRunTimeoutSeconds);
    d := d.(postRunTimeoutSeconds := src.postRunTimeoutSeconds);
    d := d.(retryLimit := src.retryLimit);
    d := d.(userID := src.userID);
    d := d.(groupID := src.groupID);
    d := d.(numPorts := src.numPorts);
    d := d.(spec := src.spec);
    d := d.(mpiSpec := src.mpiSpec);
  }

  type Spoke = Object<SpokeData, HubData>
  type Hub = Object<HubData, HubData>

  method ConvertTo(src: Spoke, dst: Hub) returns (ok: bool)
    modifies dst, src.annotations
    ensures ok == !old(StashIn(src.annotations)).Malformed?
    ensures src.data == old(src.data) && src.annotations == old(src.annotations)
    ensures dst.name == src.name && dst.namespace == src.namespace && dst.annotations == src.annotations
    ensures dst.data == Up(src.data, StashedData(old(StashIn(src.annotations))))
    ensures src.annotations != null ==>
      src.annotations.entries ==
        old(src.annotations.entries) - (if ok then {DATA_ANNOTATION} else {})
  {
    CopyMeta(src, dst);
    var data := ConvertDataToHub(src.data, dst.data);
    dst.data := data.(createContainer := true);
    var stash := UnmarshalData(src);
    if stash.Malformed? {
      return false;
    } else if stash.Restored? {
      dst.data := dst.data.(createContainer := stash.data.createContainer);
    }
    return true;
  }

  method ConvertFrom(dst: Spoke, src: Hub)
    modifies dst, src.annotations
    ensures src.data == old(src.data) && src.annotations == old(src.annotations)
    ensures dst.name == src.name && dst.namespace == src.namespace
    ensures dst.data == Down(src.data)
    ensures StashIn(dst.annotations) == Restored(CanonHub(src.data))
    ensures src.annotations != null ==> dst.annotations == src.annotations
    ensures src.annotations == null ==> fresh(dst.annotations)
    ensures dst.annotations.entries ==
      (if src.annotations == null then map[] else old(src.annotations.entries))[
        DATA_ANNOTATION := Json(CanonHub(src.data))]
  {
    CopyMeta(src, dst);
    var data := ConvertDataFromHub(src.data, dst.data);
    dst.data := data;
    MarshalData(CanonHub(src.data), dst);
  }

  /** There and back: exact with the stash, and without it exact just for profiles that create containers. */
  lemma HubRoundTrip(h: HubData)
    ensures Up(Down(h), Some(CanonHub(h))) == h
    ensures Up(Down(h), None) == h <==> h.createContainer
  {}

  /** Every field keeps its name, down and up; CreateContainer comes from the stash, and is true without one. */
  lemma FieldsKeepTheirNames(h: HubData, s: SpokeData, stash: Option<HubData>)
    ensures var d := Down(h);
      && d.pinned == h.pinned && d.storages == h.storages && d.preRunTimeoutSeconds == h.preRunTimeoutSeconds
      && d.postRunTimeoutSeconds == h.postRunTimeoutSeconds && d.retryLimit == h.retryLimit && d.userID == h.userID
      && d.groupID == h.groupID && d.numPorts == h.numPorts && d.spec == h.spec && d.mpiSpec == h.mpiSpec
    ensures var u := Up(s, stash);
      && u.pinned == s.pinned && u.storages == s.storages && u.preRunTimeoutSeconds == s.preRunTimeoutSeconds
      && u.postRunTimeoutSeconds == s.postRunTimeoutSeconds && u.retryLimit == s.retryLimit && u.userID == s.userID
      && u.groupID == s.groupID && u.numPorts == s.numPorts && u.spec == s.spec && u.mpiSpec == s.mpiSpec
      && u.createContainer == (stash.None? || stash.value.createContainer)
  {}

  // ---------- Content validation ----------

  datatype ContentError =
    | BothSpecs
    | NoSpec
    | CopyOffloadFlagMissing(name: string)
    | CopyOffloadFlagUnexpected(name: string)
    | NoContainers
    | CopyOffloadNeedsMPI(name: string)
    | PVCModeNotGlobal

  const GLOBAL_PREFIX: string := "DW_GLOBAL_"

  predicate PVCModeOk(m: StorageMount) {
    GLOBAL_PREFIX <= m.name || m.pvcMode == ""
  }

  /** The container names agree with the copy-offload setting; a profile without MPI is never for copy offload. */
  ghost predicate NamesFit(p: PodSpec, copyOffload: bool) {
    forall c :: c in p.containers.List() ==> Regex.Mentions(c.name) == copyOffload
  }

  ghost predicate ContentOk(d: HubData) {
    && d.spec.Some? != d.mpiSpec.Some?
    && (d.mpiSpec.Some? ==> NamesFit(d.mpiSpec.value.launcher, d.mpiSpec.value.copyOffload))
    && (d.spec.Some? ==> d.spec.value.containers.List() != [] && NamesFit(d.spec.value, false))
    && (forall m :: m in d.storages.List() ==> PVCModeOk(m))
  }

  /** Each error is reported for a profile that really has that fault. */
  ghost predicate Justified(d: HubData, e: ContentError) {
    match e
    case BothSpecs => d.spec.Some? && d.mpiSpec.Some?
    case NoSpec => d.spec.None? && d.mpiSpec.None?
    case CopyOffloadFlagMissing(name) =>
      && d.mpiSpec.Some? && !d.mpiSpec.value.copyOffload && Regex.Mentions(name)
      && exists c :: c in d.mpiSpec.value.launcher.containers.List() && c.name == name
    case CopyOffloadFlagUnexpected(name) =>
      && d.mpiSpec.Some? && d.mpiSpec.value.copyOffload && !Regex.Mentions(name)
      && exists c :: c in d.mpiSpec.value.launcher.containers.List() && c.name == name
    case NoContainers => d.spec.Some? && d.spec.value.containers.List() == []
    case CopyOffloadNeedsMPI(name) =>
      && d.spec.Some? && Regex.Mentions(name)
      && exists c :: c in d.spec.value.containers.List() && c.name == name
    case PVCModeNotGlobal => exists m :: m in d.storages.List() && !PVCModeOk(m)
  }

  /** The first container whose name disagrees with the setting. */
  method FirstMisnamed(cs: seq<Container>, copyOffload: bool) returns (k: Option<nat>)
    ensures k.None? ==> forall c :: c in cs ==> Regex.Mentions(c.name) == copyOffload
    ensures k.Some? ==> k.value < |cs| && Regex.Mentions(cs[k.value].name) != copyOffload
    ensures k.Some? ==> forall i :: 0 <= i < k.value ==> Regex.Mentions(cs[i].name) == copyOffload
  {
    for i := 0 to |cs|
      invariant forall j :: 0 <= j < i ==> Regex.Mentions(cs[j].name) == copyOffload
    {
      var looks := Regex.MatchString(cs[i].name);
      if looks != copyOffload {
        return Some(i);
      }
    }
    return None;
  }

  method ValidateContent(d: HubData) returns (err: Option<ContentError>)
    ensures err.None? <==> ContentOk(d)
    ensures err.Some? ==> Justified(d, err.value)
  {
    var mpiJob := d.mpiSpec.Some?;
    var nonmpiJob := d.spec.Some?;
    if mpiJob && nonmpiJob {
      return Some(BothSpecs);
    }
    if !mpiJob && !nonmpiJob {
      return Some(NoSpec);
    }
    if mpiJob {
      var containers := d.mpiSpec.value.launcher.containers.List();
      var k := FirstMisnamed(containers, d.mpiSpec.value.copyOffload);
      if k.Some? {
        var c := containers[k.value];
        assert c in containers;
        return Some(
          if d.mpiSpec.value.copyOffload then CopyOffloadFlagUnexpected(c.name) else CopyOffloadFlagMissing(c.name));
      }
    } else {
      var containers := d.spec.value.containers.List();
      if |containers| < 1 {
        return Some(NoContainers);
      }
      var k := FirstMisnamed(containers, false);
      if k.Some? {
        var c := containers[k.value];
        assert c in containers;
        return Some(CopyOffloadNeedsMPI(c.name));
      }
    }
    var storages := d.storages.List();
    for i := 0 to |storages|
      invariant forall j :: 0 <= j < i ==> PVCModeOk(storages[j])
    {
      if !(GLOBAL_PREFIX <= storages[i].name) {
        if storages[i].pvcMode != "" {
          assert storages[i] in storages;
          return Some(PVCModeNotGlobal);
        }
      }
    }
    return None;
  }

  /** A profile's content is accepted exactly if none of the faults can be found in it. */
  lemma ContentOkIffNoFault(d: HubData)
    ensures ContentOk(d) <==> forall e :: !Justified(d, e)
  {
    if ContentOk(d) {
      forall e ensures !Justified(d, e) {}
    } else {
      var e := Fault(d);
      assert Justified(d, e);
    }
  }

  /** Some fault of a profile whose content is not accepted. */
  lemma Fault(d: HubData) returns (e: ContentError)
    requires !ContentOk(d)
    ensures Justified(d, e)
  {
    if d.spec.Some? && d.mpiSpec.Some? {
      e := BothSpecs;
    } else if d.spec.None? && d.mpiSpec.None? {
      e := NoSpec;
    } else if d.mpiSpec.Some? && !NamesFit(d.mpiSpec.value.launcher, d.mpiSpec.value.copyOffload) {
      var c :| c in d.mpiSpec.value.launcher.containers.List() && Regex.Mentions(c.name) != d.mpiSpec.value.copyOffload;
      e := if d.mpiSpec.value.copyOffload then CopyOffloadFlagUnexpected(c.name) else CopyOffloadFlagMissing(c.name);
    } else if d.spec.Some? && d.spec.value.containers.List() == [] {
      e := NoContainers;
    } else if d.spec.Some? && !NamesFit(d.spec.value, false) {
      var c :| c in d.spec.value.containers.List() && Regex.Mentions(c.name);
      e := CopyOffloadNeedsMPI(c.name);
    } else {
      e := PVCModeNotGlobal;
    }
  }

  /** The same said of each part by position. */
  lemma ContentOkMeans(d: HubData)
    ensures ContentOk(d) <==>
      match (d.spec, d.mpiSpec)
      case (Some(p), None) =>
        && |p.containers.List()| >= 1
        && (forall i :: 0 <= i < |p.containers.List()| ==> !Regex.Mentions(p.containers.List()[i].name))
        && StoragesFit(d.storages.List())
      case (None, Some(m)) =>
        && (forall i :: 0 <= i < |m.launcher.containers.List()| ==>
              (Regex.Mentions(m.launcher.containers.List()[i].name) <==> m.copyOffload))
        && StoragesFit(d.storages.List())
      case _ => false
  {
    var ms := d.storages.List();
    if forall m :: m in ms ==> PVCModeOk(m) {
      forall i | 0 <= i < |ms| ensures PVCModeOk(ms[i]) {
        assert ms[i] in ms;
      }
    }
    if d.spec.Some? {
      var cs := d.spec.value.containers.List();
      assert forall i :: 0 <= i < |cs| ==> cs[i] in cs;
    }
    if d.mpiSpec.Some? {
      var cs := d.mpiSpec.value.launcher.containers.List();
      assert forall i :: 0 <= i < |cs| ==> cs[i] in cs;
    }
  }

  /** A storage with a PVC mode has a name that begins as those of global storages do. */
  predicate StoragesFit(ms: seq<StorageMount>) {
    forall i :: 0 <= i < |ms| && ms[i].pvcMode != "" ==> |ms[i].name| >= 10 && ms[i].name[..10] == "DW_GLOBAL_"
  }

  // ---------- Admission ----------

  ghost function Rules(): Policy<HubData> {
    Policy((d: HubData) => d.pinned, (d: HubData) => ContentOk(d), true)
  }

  method ValidateCreate(r: Profile<HubData>, profileNamespace: string) returns (ok: bool)
    ensures ok <==> AcceptsCreate(Rules(), profileNamespace, r)
  {
    if !r.data.pinned && r.namespace != profileNamespace {
      return false;
    }
    var err := ValidateContent(r.data);
    return err.None?;
  }

  method ValidateUpdate(stored: HubData, r: HubData) returns (ok: bool)
    ensures ok <==> AcceptsUpdate(Rules(), stored, r)
  {
    if stored.pinned != r.pinned {
      return false;
    }
    if stored.pinned {
      if r != stored {
        return false;
      }
    }
    var err := ValidateContent(r);
    return err.None?;
  }

  /** The two admission rules in full. */
  lemma RulesMean(profileNamespace: string, created: Profile<HubData>, stored: HubData, r: HubData)
    ensures AcceptsCreate(Rules(), profileNamespace, created) <==>
      (created.data.pinned || created.namespace == profileNamespace) && ContentOk(created.data)
    ensures AcceptsUpdate(Rules(), stored, r) <==>
      (if stored.pinned then r == stored else !r.pinned) && ContentOk(r)
  {}

  /** A pinned container profile is for ever what it was created as, and always a valid one. */
  lemma PinnedProfileIsImmutable(profileNamespace: string, created: Profile<HubData>, requests: seq<HubData>)
    requires AcceptsCreate(Rules(), profileNamespace, created)
    ensures var now := Run(Rules(), created, requests);
      && ContentOk(now.data)
      && now.data.pinned == created.data.pinned
      && (created.data.pinned ==> now == created)
      && (!created.data.pinned ==> now.namespace == profileNamespace)
  {
    RunKeeps(Rules(), profileNamespace, created, requests);
    RunKeepsNamespace(Rules(), created, requests);
  }

  lemma {:induction false} RunKeepsNamespace<D(!new)>(p: Policy<D>, created: Profile<D>, requests: seq<D>)
    ensures Run(p, created, requests).namespace == created.namespace
  {
    if requests != [] {
      RunKeepsNamespace(p, created, requests[..|requests| - 1]);
    }
  }

  // ---------- Admission meets conversion ----------

  /** A client of an old version reads the stored profile and writes it back as it is: both ways through JSON. */
  function WrittenBack(h: HubData, keepsStash: bool): HubData {
    Up(CanonSpoke(Down(h)), if keepsStash then Some(CanonHub(h)) else None)
  }

  lemma CanonKeepsNames(p: PodSpec, copyOffload: bool)
    ensures |CanonPod(p).containers.List()| == |p.containers.List()|
    ensures NamesFit(CanonPod(p), copyOffload) <==> NamesFit(p, copyOffload)
  {
    var cs, ds := p.containers.List(), CanonPod(p).containers.List();
    assert |cs| == |ds| && forall i :: 0 <= i < |cs| ==> ds[i] == CanonContainer(cs[i]);
    if NamesFit(p, copyOffload) {
      forall d | d in ds ensures Regex.Mentions(d.name) == copyOffload {
        var i :| 0 <= i < |ds| && ds[i] == d;
        assert cs[i] in cs;
      }
    }
    if NamesFit(CanonPod(p), copyOffload) {
      forall c | c in cs ensures Regex.Mentions(c.name) == copyOffload {
        var i :| 0 <= i < |cs| && cs[i] == c;
        assert ds[i] in ds;
      }
    }
  }

  lemma CanonKeepsContentOk(h: HubData)
    ensures ContentOk(CanonHub(h)) <==> ContentOk(h)
  {
    if h.spec.Some? {
      CanonKeepsNames(h.spec.value, false);
    }
    if h.mpiSpec.Some? {
      CanonKeepsNames(h.mpiSpec.value.launcher, h.mpiSpec.value.copyOffload);
    }
    assert h.storages.Canon().List() == h.storages.List();
  }

  lemma WrittenBackIsCanon(h: HubData, keepsStash: bool)
    ensures WrittenBack(h, keepsStash) == CanonHub(h).(createContainer := keepsStash ==> h.createContainer)
  {}

  // What a round trip through JSON changes: a list that is empty without being nil where `omitempty` forgets the
  // difference, or a value that is not settled.

  predicate UnsettledCores(s: Slice<CoreValue>) {
    s.ExplicitlyEmpty() || exists i :: 0 <= i < |s.List()| && !s.List()[i].settled
  }

  predicate UnsettledProbe(v: Option<CoreValue>) {
    v.Some? && !v.value.settled
  }

  predicate UnsettledContainer(c: Container) {
    || c.args.ExplicitlyEmpty() || UnsettledCores(c.env) || UnsettledCores(c.envFrom) || UnsettledCores(c.volumeMounts)
    || UnsettledProbe(c.livenessProbe) || UnsettledProbe(c.readinessProbe) || UnsettledProbe(c.startupProbe)
  }

  predicate UnsettledContainers(cs: seq<Container>) {
    exists i :: 0 <= i < |cs| && UnsettledContainer(cs[i])
  }

  predicate UnsettledPod(p: PodSpec) {
    || p.initContainers.ExplicitlyEmpty() || UnsettledCores(p.volumes) || UnsettledCores(p.imagePullSecrets)
    || UnsettledContainers(p.containers.List()) || UnsettledContainers(p.initContainers.List())
  }

  predicate Unsettled(h: HubData) {
    || h.storages.ExplicitlyEmpty()
    || (h.spec.Some? && UnsettledPod(h.spec.value))
    || (h.mpiSpec.Some? && (UnsettledPod(h.mpiSpec.value.launcher) || UnsettledPod(h.mpiSpec.value.worker)))
  }

  lemma CanonCoresIff(s: Slice<CoreValue>)
    ensures CanonCores(s) == s <==> !UnsettledCores(s)
  {
    if |s.List()| > 0 {
      var vs, ws := s.elems, CanonCores(s).elems;
      if UnsettledCores(s) {
        var i :| 0 <= i < |vs| && !vs[i].settled;
        assert ws[i] != vs[i];
      } else {
        assert ws == vs;
      }
    }
  }

  lemma CanonContainerIff(c: Container)
    ensures CanonContainer(c) == c <==> !UnsettledContainer(c)
  {
    CanonCoresIff(c.env);
    CanonCoresIff(c.envFrom);
    CanonCoresIff(c.volumeMounts);
  }

  // What the round trip gives for a list, and for a container: the same, settled.

  predicate SettledList(s: Slice<CoreValue>, t: Slice<CoreValue>) {
    && |t.List()| == |s.List()| && (t == Nil <==> s.List() == [])
    && forall i :: 0 <= i < |s.List()| ==> t.List()[i] == CoreValue(s.List()[i].encoding, true)
  }

  predicate SettledValue(v: Option<CoreValue>, w: Option<CoreValue>) {
    w == if v.Some? then Some(CoreValue(v.value.encoding, true)) else None
  }

  lemma CanonContainerMeans(c: Container)
    ensures var d := CanonContainer(c);
      && d.name == c.name && d.image == c.image && d.command == c.command && d.workingDir == c.workingDir
      && d.args.List() == c.args.List() && d.args != Elems([])
      && SettledList(c.env, d.env) && SettledList(c.envFrom, d.envFrom) && SettledList(c.volumeMounts, d.volumeMounts)
      && d.restartPolicy == c.restartPolicy && SettledValue(c.livenessProbe, d.livenessProbe)
      && SettledValue(c.readinessProbe, d.readinessProbe) && SettledValue(c.startupProbe, d.startupProbe)
      && d.terminationMessagePath == c.terminationMessagePath
      && d.terminationMessagePolicy == c.terminationMessagePolicy && d.imagePullPolicy == c.imagePullPolicy
  {}

  lemma CanonPodMeans(p: PodSpec)
    ensures var q := CanonPod(p);
      && |q.containers.List()| == |p.containers.List()| && q.containers.Nil? == p.containers.Nil?
      && (forall i :: 0 <= i < |p.containers.List()| ==>
            q.containers.List()[i] == CanonContainer(p.containers.List()[i]))
      && |q.initContainers.List()| == |p.initContainers.List()| && q.initContainers != Elems([])
      && (forall i :: 0 <= i < |p.initContainers.List()| ==>
            q.initContainers.List()[i] == CanonContainer(p.initContainers.List()[i]))
      && SettledList(p.volumes, q.volumes) && SettledList(p.imagePullSecrets, q.imagePullSecrets)
      && q.terminationGracePeriodSeconds == p.terminationGracePeriodSeconds
      && q.shareProcessNamespace == p.shareProcessNamespace
      && q.automountServiceAccountToken == p.automountServiceAccountToken
  {}

  lemma CanonContainersIff(s: Slice<Container>)
    ensures CanonContainers(s) == s <==> !UnsettledContainers(s.List())
  {
    if s.Elems? {
      var cs, ds := s.elems, CanonContainers(s).elems;
      forall i | 0 <= i < |cs| ensures ds[i] == cs[i] <==> !UnsettledContainer(cs[i]) {
        CanonContainerIff(cs[i]);
      }
      if UnsettledContainers(cs) {
        var i :| 0 <= i < |cs| && UnsettledContainer(cs[i]);
        assert ds[i] != cs[i];
      } else {
        assert ds == cs;
      }
    }
  }

  lemma CanonPodIff(p: PodSpec)
    ensures CanonPod(p) == p <==> !UnsettledPod(p)
  {
    CanonContainersIff(p.containers);
    CanonContainersIff(p.initContainers);
    CanonCoresIff(p.volumes);
    CanonCoresIff(p.imagePullSecrets);
    assert |CanonContainers(p.initContainers).List()| == |p.initContainers.List()|;
  }

  lemma CanonHubIff(h: HubData)
    ensures CanonHub(h) == h <==> !Unsettled(h)
  {
    if h.spec.Some? {
      CanonPodIff(h.spec.value);
    }
    if h.mpiSpec.Some? {
      CanonPodIff(h.mpiSpec.value.launcher);
      CanonPodIff(h.mpiSpec.value.worker);
    }
  }

  /** Writing back unchanged is accepted for every valid unpinned profile. For a pinned one it is accepted exactly if
      nothing in it is unsettled and, when the stash is dropped, containers are to be created. */
  lemma WriteBackAccepted(h: HubData, keepsStash: bool)
    requires ContentOk(h)
    ensures AcceptsUpdate(Rules(), h, WrittenBack(h, keepsStash)) <==>
      !h.pinned || (!Unsettled(h) && (keepsStash || h.createContainer))
  {
    WrittenBackIsCanon(h, keepsStash);
    CanonKeepsContentOk(h);
    CanonHubIff(h);
    var w := WrittenBack(h, keepsStash);
    assert ContentOk(w) <==> ContentOk(CanonHub(h));
    assert w == h <==> CanonHub(h) == h && (keepsStash || h.createContainer);
  }

  /** Accepted pinned profiles that a client of an old version cannot write back, although it changes nothing and keeps
      the stash: one with an explicit empty argument list, one with a volume that is not settled. */
  lemma EmptyListBlocksWriteBack(namespace: string, profileNamespace: string, encoding: string)
    ensures forall h :: h in {Pinned(Elems([]), Nil), Pinned(Nil, Elems([CoreValue(encoding, false)]))} ==>
      && AcceptsCreate(Rules(), profileNamespace, Profile(namespace, h))
      && !AcceptsUpdate(Rules(), h, WrittenBack(h, true))
  {
    assert !Regex.Mentions("main");
    var a, v := Pinned(Elems([]), Nil), Pinned(Nil, Elems([CoreValue(encoding, false)]));
    assert UnsettledContainer(a.spec.value.containers.elems[0]);
    assert !v.spec.value.volumes.List()[0].settled;
    WriteBackAccepted(a, true);
    WriteBackAccepted(v, true);
  }

  /** A pinned profile with one ordinary container. */
  function Pinned(args: Strings, volumes: Slice<CoreValue>): HubData {
    var c := Container("main", "image", Nil, args, Nil, Nil, Nil, "", None, None, None, None, "", "", "");
    var p := PodSpec(Elems([c]), Nil, volumes, None, None, Nil, None);
    ZERO.(pinned := true, createContainer := true, spec := Some(p))
  }

  /** What a Go client last wrote has been through its encoder, and going through it again changes nothing. */
  lemma EncodedIsCanonical(h: HubData)
    ensures CanonHub(CanonHub(h)) == CanonHub(h)
    ensures !Unsettled(CanonHub(h))
  {
    if h.spec.Some? {
      CanonPodTwice(h.spec.value);
    }
    if h.mpiSpec.Some? {
      CanonPodTwice(h.mpiSpec.value.launcher);
      CanonPodTwice(h.mpiSpec.value.worker);
    }
    CanonHubIff(CanonHub(h));
  }

  lemma CanonCoresTwice(s: Slice<CoreValue>)
    ensures CanonCores(CanonCores(s)) == CanonCores(s)
  {
    CanonCoresIff(CanonCores(s));
  }

  lemma CanonContainerTwice(c: Container)
    ensures CanonContainer(CanonContainer(c)) == CanonContainer(c)
  {
    CanonCoresTwice(c.env);
    CanonCoresTwice(c.envFrom);
    CanonCoresTwice(c.volumeMounts);
  }

  lemma CanonPodTwice(p: PodSpec)
    ensures CanonPod(CanonPod(p)) == CanonPod(p)
  {
    CanonContainersTwice(p.containers);
    CanonContainersTwice(p.initContainers);
    CanonCoresTwice(p.volumes);
    CanonCoresTwice(p.imagePullSecrets);
  }

  lemma CanonContainersTwice(s: Slice<Container>)
    ensures CanonContainers(CanonContainers(s)) == CanonContainers(s)
    ensures CanonContainers(CanonContainers(s).Canon()) == CanonContainers(s).Canon()
  {
    if s.Elems? {
      var cs := s.elems;
      forall i | 0 <= i < |cs| ensures CanonContainer(CanonContainer(cs[i])) == CanonContainer(cs[i]) {
        CanonContainerTwice(cs[i]);
      }
    }
  }

  /** So for every valid profile last written by a Go client, a client of an old version that keeps the stash is always
      let through, and one that drops it is let through on a pinned profile exactly if containers are to be created. */
  lemma StoredProfileWriteBack(h: HubData)
    requires ContentOk(h)
    ensures var stored := CanonHub(h);
      && AcceptsUpdate(Rules(), stored, WrittenBack(stored, true))
      && (AcceptsUpdate(Rules(), stored, WrittenBack(stored, false)) <==> !stored.pinned || stored.createContainer)
  {
    EncodedIsCanonical(h);
    CanonKeepsContentOk(h);
    WriteBackAccepted(CanonHub(h), true);
    WriteBackAccepted(CanonHub(h), false);
  }
}
