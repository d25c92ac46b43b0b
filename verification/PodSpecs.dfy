/** Pod specifications on the heap: to and from the Kubernetes form, and between API versions. */
module PodSpecs {
  import opened GoValues
  import opened ContainerProfiles

  function NonNil<T>(s: Slice<T>): Slice<T> {
    Elems(s.List())
  }

  function EmptyToNil<T>(s: seq<T>): Slice<T> {
    if s == [] then Nil else Elems(s)
  }

  // ---------- The Kubernetes side; `others` stands for the fields this repository never sets ----------

  datatype CoreContainer = CoreContainer(common: Container, others: Option<CoreValue>)

  datatype CorePodSpec = CorePodSpec(
    containers: Slice<CoreContainer>, initContainers: Slice<CoreContainer>, volumes: Slice<CoreValue>,
    terminationGracePeriodSeconds: Option<int>, shareProcessNamespace: Option<bool>,
    imagePullSecrets: Slice<CoreValue>, automountServiceAccountToken: Option<bool>, others: Option<CoreValue>)

  const ZERO_CONTAINER := Container("", "", Nil, Nil, Nil, Nil, Nil, "", None, None, None, None, "", "", "")
  const ZERO_POD := PodSpec(Nil, Nil, Nil, None, None, Nil, None)

  /** Every slice of the container made non-nil. */
  function Filled(c: Container): Container {
    c.(command := NonNil(c.command), args := NonNil(c.args), env := NonNil(c.env), envFrom := NonNil(c.envFrom),
       volumeMounts := NonNil(c.volumeMounts))
  }

  function ToCore(c: Container): CoreContainer {
    CoreContainer(Filled(c), None)
  }

  function CoreAll(cs: seq<Container>): seq<CoreContainer> {
    seq(|cs|, i requires 0 <= i < |cs| => ToCore(cs[i]))
  }

  function OrElse<T>(o: Option<T>, was: Option<T>): Option<T> {
    if o.Some? then o else was
  }

  /** A container written over another one: absent optional values leave what was there. */
  function FromCore(was: Container, c: CoreContainer): Container {
    Filled(c.common).(
      restartPolicy := OrElse(c.common.restartPolicy, was.restartPolicy),
      livenessProbe := OrElse(c.common.livenessProbe, was.livenessProbe),
      readinessProbe := OrElse(c.common.readinessProbe, was.readinessProbe),
      startupProbe := OrElse(c.common.startupProbe, was.startupProbe))
  }

  /** What a pod specification means to Kubernetes. */
  function Meaning(p: PodSpec): CorePodSpec {
    CorePodSpec(
      EmptyToNil(CoreAll(p.containers.List())), EmptyToNil(CoreAll(p.initContainers.List())),
      EmptyToNil(p.volumes.List()), p.terminationGracePeriodSeconds, p.shareProcessNamespace,
      NonNil(p.imagePullSecrets), p.automountServiceAccountToken, None)
  }

  function FromFresh(c: CoreContainer): Container {
    FromCore(ZERO_CONTAINER, c)
  }

  function FreshAll(ks: seq<CoreContainer>): seq<Container> {
    seq(|ks|, i requires 0 <= i < |ks| => FromFresh(ks[i]))
  }

  /** A Kubernetes specification written over an existing one. */
  function Overwritten(was: PodSpec, k: CorePodSpec): PodSpec {
    PodSpec(
      Elems(FreshAll(k.containers.List())), Elems(FreshAll(k.initContainers.List())),
      NonNil(k.volumes),
      OrElse(k.terminationGracePeriodSeconds, was.terminationGracePeriodSeconds),
      OrElse(k.shareProcessNamespace, was.shareProcessNamespace),
      NonNil(k.imagePullSecrets),
      OrElse(k.automountServiceAccountToken, was.automountServiceAccountToken))
  }

  // ---------- The objects ----------

  /** NnfPodSpec. v1alpha10 declares it field for field the same, and conversion reinterprets its memory, so one class
      stands for both; the methods here are those of v1alpha11. */
  class Pod {
    var containers: array?<Container>
    var initContainers: array?<Container>
    var volumes: array?<CoreValue>
    var terminationGracePeriodSeconds: Option<int>
    var shareProcessNamespace: Option<bool>
    var imagePullSecrets: array?<CoreValue>
    var automountServiceAccountToken: Option<bool>

    constructor ()
      ensures containers == null && initContainers == null && volumes == null && imagePullSecrets == null
      ensures View() == ZERO_POD
    {
      containers, initContainers, volumes, imagePullSecrets := null, null, null, null;
      terminationGracePeriodSeconds, shareProcessNamespace, automountServiceAccountToken := None, None, None;
    }

    ghost function Arrays(): set<object?>
      reads this
    {
      {containers as object?, initContainers as object?, volumes as object?, imagePullSecrets as object?}
    }

    ghost function View(): PodSpec
      reads this, containers, initContainers, volumes, imagePullSecrets
    {
      PodSpec(SliceOf(containers), SliceOf(initContainers), SliceOf(volumes), terminationGracePeriodSeconds,
              shareProcessNamespace, SliceOf(imagePullSecrets), automountServiceAccountToken)
    }

    /** Writes the Kubernetes form into this object, in arrays of its own. */
    method FromCorePodSpec(k: CorePod?)
      modifies this
      ensures k == null ==> unchanged(this)
      ensures k != null ==>
        && View() == Overwritten(old(View()), old(k.View()))
        && containers != null && initContainers != null && volumes != null && imagePullSecrets != null
        && fresh(containers) && fresh(initContainers) && fresh(volumes) && fresh(imagePullSecrets)
    {
      if k == null {
        return;
      }
      ghost var m := Overwritten(View(), k.View());
      var cs, inits, vols, secrets := SlicesFromCore(k);
      SetSlices(cs, inits, vols, secrets);
      TakeOptionals(k);
      assert View() == m;
    }

    method SetSlices(
        cs: array?<Container>, inits: array?<Container>, vols: array?<CoreValue>, secrets: array?<CoreValue>)
      modifies this`containers, this`initContainers, this`volumes, this`imagePullSecrets
      ensures containers == cs && initContainers == inits && volumes == vols && imagePullSecrets == secrets
    {
      containers, initContainers, volumes, imagePullSecrets := cs, inits, vols, secrets;
    }

    /** Takes the optional values there are and keeps its own where there are none. */
    method TakeOptionals(k: CorePod)
      modifies this`terminationGracePeriodSeconds, this`shareProcessNamespace, this`automountServiceAccountToken
      ensures terminationGracePeriodSeconds ==
        OrElse(k.terminationGracePeriodSeconds, old(terminationGracePeriodSeconds))
      ensures shareProcessNamespace == OrElse(k.shareProcessNamespace, old(shareProcessNamespace))
      ensures automountServiceAccountToken == OrElse(k.automountServiceAccountToken, old(automountServiceAccountToken))
    {
      if k.terminationGracePeriodSeconds.Some? {
        terminationGracePeriodSeconds := k.terminationGracePeriodSeconds;
      }
      if k.shareProcessNamespace.Some? {
        shareProcessNamespace := k.shareProcessNamespace;
      }
      if k.automountServiceAccountToken.Some? {
        automountServiceAccountToken := k.automountServiceAccountToken;
      }
    }
  }

  class CorePod {
    var containers: array?<CoreContainer>
    var initContainers: array?<CoreContainer>
    var volumes: array?<CoreValue>
    var terminationGracePeriodSeconds: Option<int>
    var shareProcessNamespace: Option<bool>
    var imagePullSecrets: array?<CoreValue>
    var automountServiceAccountToken: Option<bool>
    var others: Option<CoreValue>

    constructor ()
      ensures containers == null && initContainers == null && volumes == null && imagePullSecrets == null
      ensures View() == CorePodSpec(Nil, Nil, Nil, None, None, Nil, None, None)
    {
      containers, initContainers, volumes, imagePullSecrets := null, null, null, null;
      terminationGracePeriodSeconds, shareProcessNamespace, automountServiceAccountToken := None, None, None;
      others := None;
    }

    method SetSlices(
        cs: array?<CoreContainer>, inits: array?<CoreContainer>, vols: array?<CoreValue>, secrets: array?<CoreValue>)
      modifies this`containers, this`initContainers, this`volumes, this`imagePullSecrets
      ensures containers == cs && initContainers == inits && volumes == vols && imagePullSecrets == secrets
    {
      containers, initContainers, volumes, imagePullSecrets := cs, inits, vols, secrets;
    }

    /** Sets the optional values the source has. */
    method CopyOptionals(s: Pod)
      requires terminationGracePeriodSeconds.None? && shareProcessNamespace.None? && automountServiceAccountToken.None?
      modifies this`terminationGracePeriodSeconds, this`shareProcessNamespace, this`automountServiceAccountToken
      ensures terminationGracePeriodSeconds == s.terminationGracePeriodSeconds
      ensures shareProcessNamespace == s.shareProcessNamespace
      ensures automountServiceAccountToken == s.automountServiceAccountToken
    {
      if s.terminationGracePeriodSeconds.Some? {
        terminationGracePeriodSeconds := s.terminationGracePeriodSeconds;
      }
      if s.shareProcessNamespace.Some? {
        shareProcessNamespace := s.shareProcessNamespace;
      }
      if s.automountServiceAccountToken.Some? {
        automountServiceAccountToken := s.automountServiceAccountToken;
      }
    }

    ghost function Arrays(): set<object?>
      reads this
    {
      {containers as object?, initContainers as object?, volumes as object?, imagePullSecrets as object?}
    }

    ghost function View(): CorePodSpec
      reads this, containers, initContainers, volumes, imagePullSecrets
    {
      CorePodSpec(SliceOf(containers), SliceOf(initContainers), SliceOf(volumes), terminationGracePeriodSeconds,
                  shareProcessNamespace, SliceOf(imagePullSecrets), automountServiceAccountToken, others)
    }
  }

  /** The views show every field in its own place. */
  lemma ViewsMean(p: Pod, k: CorePod)
    ensures var v := p.View();
      && v.containers == (if p.containers == null then Nil else Elems(p.containers[..]))
      && v.initContainers == (if p.initContainers == null then Nil else Elems(p.initContainers[..]))
      && v.volumes == (if p.volumes == null then Nil else Elems(p.volumes[..]))
      && v.imagePullSecrets == (if p.imagePullSecrets == null then Nil else Elems(p.imagePullSecrets[..]))
      && v.terminationGracePeriodSeconds == p.terminationGracePeriodSeconds
      && v.shareProcessNamespace == p.shareProcessNamespace
      && v.automountServiceAccountToken == p.automountServiceAccountToken
    ensures var v := k.View();
      && v.containers == (if k.containers == null then Nil else Elems(k.containers[..]))
      && v.initContainers == (if k.initContainers == null then Nil else Elems(k.initContainers[..]))
      && v.volumes == (if k.volumes == null then Nil else Elems(k.volumes[..]))
      && v.imagePullSecrets == (if k.imagePullSecrets == null then Nil else Elems(k.imagePullSecrets[..]))
      && v.terminationGracePeriodSeconds == k.terminationGracePeriodSeconds
      && v.shareProcessNamespace == k.shareProcessNamespace
      && v.automountServiceAccountToken == k.automountServiceAccountToken
      && v.others == k.others
  {}

  // ---------- Copying slices ----------

  /** `append([]T{}, s...)`, or a make-and-copy: a fresh array, never nil. */
  method CopyOf<T>(s: array?<T>) returns (a: array<T>)
    ensures fresh(a) && a[..] == SliceOf(s).List()
  {
    if s == null {
      a := new T[0];
      assert a[..] == [];
    } else {
      a := new T[s.Length](i requires 0 <= i < s.Length reads s => s[i]);
      assert a[..] == s[..];
    }
  }

  method ToCoreContainer(s: Container) returns (out: CoreContainer)
    ensures out == ToCore(s)
  {
    var c := ZERO_CONTAINER.(
      name := s.name, image := s.image, command := NonNil(s.command), args := NonNil(s.args), env := NonNil(s.env),
      envFrom := NonNil(s.envFrom), volumeMounts := NonNil(s.volumeMounts), workingDir := s.workingDir,
      terminationMessagePath := s.terminationMessagePath, terminationMessagePolicy := s.terminationMessagePolicy,
      imagePullPolicy := s.imagePullPolicy);
    if s.restartPolicy.Some? {
      c := c.(restartPolicy := s.restartPolicy);
    }
    if s.livenessProbe.Some? {
      c := c.(livenessProbe := s.livenessProbe);
    }
    if s.readinessProbe.Some? {
      c := c.(readinessProbe := s.readinessProbe);
    }
    if s.startupProbe.Some? {
      c := c.(startupProbe := s.startupProbe);
    }
    out := CoreContainer(c, None);
  }

  method FromCoreContainer(was: Container, k: CoreContainer) returns (s: Container)
    ensures s == FromCore(was, k)
  {
    s := was.(name := k.common.name, image := k.common.image);
    s := s.(command := NonNil(k.common.command), args := NonNil(k.common.args));
    s := s.(env := NonNil(k.common.env), envFrom := NonNil(k.common.envFrom));
    s := s.(volumeMounts := NonNil(k.common.volumeMounts));
    s := s.(workingDir := k.common.workingDir, terminationMessagePath := k.common.terminationMessagePath);
    s := s.(terminationMessagePolicy := k.common.terminationMessagePolicy, imagePullPolicy := k.common.imagePullPolicy);
    if k.common.restartPolicy.Some? {
      s := s.(restartPolicy := k.common.restartPolicy);
    }
    if k.common.livenessProbe.Some? {
      s := s.(livenessProbe := k.common.livenessProbe);
    }
    if k.common.readinessProbe.Some? {
      s := s.(readinessProbe := k.common.readinessProbe);
    }
    if k.common.startupProbe.Some? {
      s := s.(startupProbe := k.common.startupProbe);
    }
  }

  method ToCoreContainers(s: array?<Container>) returns (a: array?<CoreContainer>)
    ensures SliceOf(a) == EmptyToNil(CoreAll(SliceOf(s).List()))
    ensures a == null || fresh(a)
  {
    if s == null || s.Length == 0 {
      return null;
    }
    var out := new CoreContainer[s.Length](_ => CoreContainer(ZERO_CONTAINER, None));
    for i := 0 to s.Length
      invariant forall j :: 0 <= j < i ==> out[j] == ToCore(s[j])
    {
      out[i] := ToCoreContainer(s[i]);
    }
    assert out[..] == CoreAll(s[..]);
    return out;
  }

  method FromCoreContainers(k: array?<CoreContainer>) returns (a: array<Container>)
    ensures a[..] == FreshAll(SliceOf(k).List())
    ensures fresh(a)
  {
    var n := if k == null then 0 else k.Length;
    a := new Container[n](_ => ZERO_CONTAINER);
    for i := 0 to n
      invariant forall j :: 0 <= j < i ==> a[j] == FromFresh(k[j])
      invariant forall j :: i <= j < n ==> a[j] == ZERO_CONTAINER
    {
      a[i] := FromCoreContainer(a[i], k[i]);
    }
    assert a[..] == FreshAll(SliceOf(k).List());
  }

  /** The slices of the Kubernetes form, each in an array of its own. */
  method SlicesToCore(s: Pod) returns (
      cs: array?<CoreContainer>, inits: array?<CoreContainer>, vols: array?<CoreValue>, secrets: array<CoreValue>)
    ensures SliceOf(cs) == Meaning(s.View()).containers && SliceOf(inits) == Meaning(s.View()).initContainers
    ensures SliceOf(vols) == Meaning(s.View()).volumes && SliceOf(secrets) == Meaning(s.View()).imagePullSecrets
    ensures (cs == null || fresh(cs)) && (inits == null || fresh(inits))
    ensures (vols == null || fresh(vols)) && fresh(secrets)
  {
    cs := ToCoreContainers(s.containers);
    inits := ToCoreContainers(s.initContainers);
    vols := null;
    if s.volumes != null && s.volumes.Length > 0 {
      vols := CopyOf(s.volumes);
    }
    secrets := CopyOf(s.imagePullSecrets);
  }

  method SlicesFromCore(k: CorePod) returns (
      cs: array<Container>, inits: array<Container>, vols: array<CoreValue>, secrets: array<CoreValue>)
    ensures SliceOf(cs) == Elems(FreshAll(k.View().containers.List()))
    ensures SliceOf(inits) == Elems(FreshAll(k.View().initContainers.List()))
    ensures SliceOf(vols) == NonNil(k.View().volumes) && SliceOf(secrets) == NonNil(k.View().imagePullSecrets)
    ensures fresh(cs) && fresh(inits) && fresh(vols) && fresh(secrets)
  {
    cs := FromCoreContainers(k.containers);
    inits := FromCoreContainers(k.initContainers);
    vols := CopyOf(k.volumes);
    secrets := CopyOf(k.imagePullSecrets);
  }

  /** Nil for nil; otherwise the pod's meaning, in memory of its own. */
  method ToCorePodSpec(s: Pod?) returns (out: CorePod?)
    ensures s == null <==> out == null
    ensures s != null ==> fresh(out) && out.View() == Meaning(s.View())
    ensures s != null ==> forall a :: a in out.Arrays() ==> a == null || fresh(a)
  {
    if s == null {
      return null;
    }
    var cs, inits, vols, secrets := SlicesToCore(s);
    ghost var m := Meaning(s.View());
    out := new CorePod();
    out.CopyOptionals(s);
    out.SetSlices(cs, inits, vols, secrets);
    assert out.View() == m;
  }

  /** The generated conversion, either way: values are copied, slices are shared. */
  method ConvertPodSpec(src: Pod, out: Pod)
    requires src != out
    modifies out
    ensures out.View() == src.View() && src.View() == old(src.View())
    ensures out.containers == src.containers && out.initContainers == src.initContainers
    ensures out.volumes == src.volumes && out.imagePullSecrets == src.imagePullSecrets
  {
    out.containers := src.containers;
    out.initContainers := src.initContainers;
    out.volumes := src.volumes;
    out.terminationGracePeriodSeconds := src.terminationGracePeriodSeconds;
    out.shareProcessNamespace := src.shareProcessNamespace;
    out.imagePullSecrets := src.imagePullSecrets;
    out.automountServiceAccountToken := src.automountServiceAccountToken;
  }

  // ---------- Field by field ----------

  /** d holds what c holds, field by field, and has no nil list. */
  predicate SameFields(c: Container, d: Container) {
    && d.name == c.name && d.image == c.image && d.workingDir == c.workingDir
    && d.command == Elems(c.command.List()) && d.args == Elems(c.args.List())
    && d.env == Elems(c.env.List()) && d.envFrom == Elems(c.envFrom.List())
    && d.volumeMounts == Elems(c.volumeMounts.List())
    && d.restartPolicy == c.restartPolicy && d.livenessProbe == c.livenessProbe
    && d.readinessProbe == c.readinessProbe && d.startupProbe == c.startupProbe
    && d.terminationMessagePath == c.terminationMessagePath
    && d.terminationMessagePolicy == c.terminationMessagePolicy && d.imagePullPolicy == c.imagePullPolicy
  }

  /** The Kubernetes container has exactly the fields of the profile's, and back. */
  lemma ContainerKeepsItsFields(c: Container, k: CoreContainer)
    ensures SameFields(c, ToCore(c).common) && ToCore(c).others == None
    ensures SameFields(k.common, FromFresh(k))
  {}

  predicate SameContainers(cs: seq<Container>, ds: seq<Container>) {
    |ds| == |cs| && forall i :: 0 <= i < |cs| ==> SameFields(cs[i], ds[i])
  }

  function Common(ks: seq<CoreContainer>): seq<Container> {
    seq(|ks|, i requires 0 <= i < |ks| => ks[i].common)
  }

  /** The Kubernetes form has the containers, the init containers and everything else in their own places; nil stands
      for no containers and for no volumes, and never for no secrets. */
  lemma MeaningKeepsTheFields(p: PodSpec)
    ensures var k := Meaning(p);
      && SameContainers(p.containers.List(), Common(k.containers.List()))
      && SameContainers(p.initContainers.List(), Common(k.initContainers.List()))
      && (forall c :: c in k.containers.List() + k.initContainers.List() ==> c.others == None)
      && k.volumes.List() == p.volumes.List() && k.imagePullSecrets == Elems(p.imagePullSecrets.List())
      && k.terminationGracePeriodSeconds == p.terminationGracePeriodSeconds
      && k.shareProcessNamespace == p.shareProcessNamespace
      && k.automountServiceAccountToken == p.automountServiceAccountToken
      && k.others == None
      && (k.containers == Nil <==> p.containers.List() == [])
      && (k.initContainers == Nil <==> p.initContainers.List() == [])
      && (k.volumes == Nil <==> p.volumes.List() == [])
  {
    MappedContainers(p.containers.List());
    MappedContainers(p.initContainers.List());
  }

  lemma MappedContainers(cs: seq<Container>)
    ensures SameContainers(cs, Common(CoreAll(cs))) && forall k :: k in CoreAll(cs) ==> k.others == None
  {
    forall i | 0 <= i < |cs| ensures SameFields(cs[i], Common(CoreAll(cs))[i]) {
      assert Common(CoreAll(cs))[i] == ToCore(cs[i]).common;
    }
  }

  /** Into any receiver, the input's fields arrive in their own places; only an optional value the input lacks leaves
      the receiver's. */
  lemma OverwritingKeepsTheFields(was: PodSpec, k: CorePodSpec)
    ensures var p := Overwritten(was, k);
      && SameContainers(Common(k.containers.List()), p.containers.List()) && p.containers.Elems?
      && SameContainers(Common(k.initContainers.List()), p.initContainers.List()) && p.initContainers.Elems?
      && p.volumes == Elems(k.volumes.List()) && p.imagePullSecrets == Elems(k.imagePullSecrets.List())
      && p.terminationGracePeriodSeconds == (if k.terminationGracePeriodSeconds.Some?
           then k.terminationGracePeriodSeconds else was.terminationGracePeriodSeconds)
      && p.shareProcessNamespace ==
           (if k.shareProcessNamespace.Some? then k.shareProcessNamespace else was.shareProcessNamespace)
      && p.automountServiceAccountToken == (if k.automountServiceAccountToken.Some?
           then k.automountServiceAccountToken else was.automountServiceAccountToken)
  {
    FreshContainers(k.containers.List());
    FreshContainers(k.initContainers.List());
  }

  lemma FreshContainers(ks: seq<CoreContainer>)
    ensures SameContainers(Common(ks), FreshAll(ks))
  {
    forall i | 0 <= i < |ks| ensures SameFields(Common(ks)[i], FreshAll(ks)[i]) {
      assert FreshAll(ks)[i] == FromFresh(ks[i]);
    }
  }

  /** A container that is not fresh keeps of its own only the optional values the input lacks. */
  lemma UsedContainer(was: Container, k: CoreContainer)
    ensures var d, c := FromCore(was, k), k.common;
      && SameFields(c, d.(restartPolicy := c.restartPolicy, livenessProbe := c.livenessProbe,
                          readinessProbe := c.readinessProbe, startupProbe := c.startupProbe))
      && d.restartPolicy == (if c.restartPolicy.Some? then c.restartPolicy else was.restartPolicy)
      && d.livenessProbe == (if c.livenessProbe.Some? then c.livenessProbe else was.livenessProbe)
      && d.readinessProbe == (if c.readinessProbe.Some? then c.readinessProbe else was.readinessProbe)
      && d.startupProbe == (if c.startupProbe.Some? then c.startupProbe else was.startupProbe)
  {}

  /** The round trip through a fresh receiver gives back every field, with no list nil. */
  predicate SamePod(p: PodSpec, q: PodSpec) {
    && SameContainers(p.containers.List(), q.containers.List()) && q.containers.Elems?
    && SameContainers(p.initContainers.List(), q.initContainers.List()) && q.initContainers.Elems?
    && q.volumes == Elems(p.volumes.List()) && q.imagePullSecrets == Elems(p.imagePullSecrets.List())
    && q.terminationGracePeriodSeconds == p.terminationGracePeriodSeconds
    && q.shareProcessNamespace == p.shareProcessNamespace
    && q.automountServiceAccountToken == p.automountServiceAccountToken
  }

  // ---------- What holds of them ----------

  /** A later write through the source's containers shows in the converted pod and not in its Kubernetes form. */
  method WriteThrough(src: Pod, other: Pod, i: nat, c: Container) returns (k: CorePod)
    requires src != other && src.containers != null && i < src.containers.Length
    modifies other, src.containers
    ensures other.View().containers == src.View().containers
    ensures other.containers != null && i < other.containers.Length && other.containers[i] == c
    ensures k.View() == Meaning(old(src.View()))
  {
    ConvertPodSpec(src, other);
    k := ToCorePodSpec(other);
    src.containers[i] := c;
  }

  function FilledAll(cs: seq<Container>): seq<Container> {
    seq(|cs|, i requires 0 <= i < |cs| => Filled(cs[i]))
  }

  function FilledPod(p: PodSpec): PodSpec {
    p.(containers := Elems(FilledAll(p.containers.List())),
       initContainers := Elems(FilledAll(p.initContainers.List())),
       volumes := NonNil(p.volumes),
       imagePullSecrets := NonNil(p.imagePullSecrets))
  }

  lemma FromToContainers(cs: seq<Container>)
    ensures FreshAll(EmptyToNil(CoreAll(cs)).List()) == FilledAll(cs)
  {
    assert forall i :: 0 <= i < |cs| ==> FromFresh(ToCore(cs[i])) == Filled(cs[i]);
  }

  lemma ReadBack(cs: seq<Container>)
    ensures SameContainers(cs, FreshAll(EmptyToNil(CoreAll(cs)).List()))
  {
    forall i | 0 <= i < |cs| ensures SameFields(cs[i], FromFresh(ToCore(cs[i]))) {}
  }

  /** Into a fresh receiver, the round trip fills every nil slice and changes nothing else. */
  lemma RoundTrip(p: PodSpec)
    ensures Overwritten(ZERO_POD, Meaning(p)) == FilledPod(p)
    ensures SamePod(p, Overwritten(ZERO_POD, Meaning(p)))
  {
    ReadBack(p.containers.List());
    ReadBack(p.initContainers.List());
    FromToContainers(p.containers.List());
    FromToContainers(p.initContainers.List());
  }

  /** Doing it again changes nothing at all. */
  lemma RoundTripTwice(p: PodSpec)
    ensures FilledPod(FilledPod(p)) == FilledPod(p)
    ensures Overwritten(ZERO_POD, Meaning(FilledPod(p))) == FilledPod(p)
  {
    FilledTwice(p.containers.List());
    FilledTwice(p.initContainers.List());
    RoundTrip(FilledPod(p));
  }

  lemma FilledTwice(cs: seq<Container>)
    ensures FilledAll(FilledAll(cs)) == FilledAll(cs)
  {
    assert forall i :: 0 <= i < |cs| ==> Filled(Filled(cs[i])) == Filled(cs[i]);
  }

  /** Two pods mean the same to Kubernetes exactly if they differ at most in nil against empty. */
  lemma SameMeaningIff(p: PodSpec, q: PodSpec)
    ensures Meaning(p) == Meaning(q) <==> FilledPod(p) == FilledPod(q)
  {
    RoundTrip(p);
    RoundTrip(q);
    MeaningOfFilled(p);
    MeaningOfFilled(q);
  }

  lemma MeaningOfFilled(p: PodSpec)
    ensures Meaning(FilledPod(p)) == Meaning(p)
  {
    var cs, ds := p.containers.List(), p.initContainers.List();
    assert CoreAll(FilledAll(cs)) == CoreAll(cs) by {
      assert forall i :: 0 <= i < |cs| ==> ToCore(Filled(cs[i])) == ToCore(cs[i]);
    }
    assert CoreAll(FilledAll(ds)) == CoreAll(ds) by {
      assert forall i :: 0 <= i < |ds| ==> ToCore(Filled(ds[i])) == ToCore(ds[i]);
    }
  }

  /** A used receiver keeps its own top-level optional values exactly where the input has none; what its containers
      held before never matters. */
  lemma UsedReceiver(was: PodSpec, k: CorePodSpec)
    ensures Overwritten(was, k) == Overwritten(ZERO_POD, k) <==>
      && (k.terminationGracePeriodSeconds.None? ==> was.terminationGracePeriodSeconds.None?)
      && (k.shareProcessNamespace.None? ==> was.shareProcessNamespace.None?)
      && (k.automountServiceAccountToken.None? ==> was.automountServiceAccountToken.None?)
    ensures var fresh_ := Overwritten(ZERO_POD, k);
      Overwritten(was, k) == fresh_.(
        terminationGracePeriodSeconds :=
          OrElse(fresh_.terminationGracePeriodSeconds, was.terminationGracePeriodSeconds),
        shareProcessNamespace := OrElse(fresh_.shareProcessNamespace, was.shareProcessNamespace),
        automountServiceAccountToken := OrElse(fresh_.automountServiceAccountToken, was.automountServiceAccountToken))
  {}

  /** The containers after the trip: in place and in order, without the fields this repository does not know. */
  predicate ContainersKept(back: seq<CoreContainer>, was: seq<CoreContainer>) {
    && |back| == |was|
    && forall i :: 0 <= i < |was| ==> SameFields(was[i].common, back[i].common) && back[i].others == None
  }

  /** From Kubernetes and back again: only the fields this repository does not know are lost, and nil becomes empty
      or the other way round as the Kubernetes form prefers. */
  lemma CoreRoundTrip(k: CorePodSpec)
    ensures var back := Meaning(Overwritten(ZERO_POD, k));
      && ContainersKept(back.containers.List(), k.containers.List())
      && ContainersKept(back.initContainers.List(), k.initContainers.List())
      && back.volumes.List() == k.volumes.List()
      && back.imagePullSecrets.List() == k.imagePullSecrets.List()
      && back.terminationGracePeriodSeconds == k.terminationGracePeriodSeconds
      && back.shareProcessNamespace == k.shareProcessNamespace
      && back.automountServiceAccountToken == k.automountServiceAccountToken
      && back.others == None
  {
    forall c: CoreContainer
      ensures SameFields(c.common, ToCore(FromFresh(c)).common) && ToCore(FromFresh(c)).others == None
    {}
  }
}
