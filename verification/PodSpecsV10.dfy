/** The v1alpha10 copies of the pod translations, and how they go together with the hub's. */
module PodSpecsV10 {
  import opened GoValues
  import opened ContainerProfiles
  import opened PodSpecs

  method ToCoreContainer(s: Container) returns (out: CoreContainer)
    ensures out == ToCore(s)
  {
    var c := ZERO_CONTAINER.(
      name := s.name, image := s.image, command := NonNil(s.command), args := NonNil(s.args), env := NonNil(s.env),
      envFrom := NonNil(s.envFrom), volumeMounts := NonNil(s.volumeMounts), workingDir := s.workingDir,
      terminationMessagePath := s.terminationMessagePath, terminationMessagePolicy := s.terminationMessagePolicy,
      imagePullPolicy := s.imagePullPolicy);
    if s.restartPolicy.Some? {
      c := c.(restartPolicy := s.restartPolicy);
    }
    if s.livenessProbe.Some? {
      c := c.(livenessProbe := s.livenessProbe);
    }
    if s.readinessProbe.Some? {
      c := c.(readinessProbe := s.readinessProbe);
    }
    if s.startupProbe.Some? {
      c := c.(startupProbe := s.startupProbe);
    }
    out := CoreContainer(c, None);
  }

  method FromCoreContainer(was: Container, k: CoreContainer) returns (s: Container)
    ensures s == FromCore(was, k)
  {
    s := was.(name := k.common.name, image := k.common.image);
    s := s.(command := NonNil(k.common.command), args := NonNil(k.common.args));
    s := s.(env := NonNil(k.common.env), envFrom := NonNil(k.common.envFrom));
    s := s.(volumeMounts := NonNil(k.common.volumeMounts));
    s := s.(workingDir := k.common.workingDir, terminationMessagePath := k.common.terminationMessagePath);
    s := s.(terminationMessagePolicy := k.common.terminationMessagePolicy, imagePullPolicy := k.common.imagePullPolicy);
    if k.common.restartPolicy.Some? {
      s := s.(restartPolicy := k.common.restartPolicy);
    }
    if k.common.livenessProbe.Some? {
      s := s.(livenessProbe := k.common.livenessProbe);
    }
    if k.common.readinessProbe.Some? {
      s := s.(readinessProbe := k.common.readinessProbe);
    }
    if k.common.startupProbe.Some? {
      s := s.(startupProbe := k.common.startupProbe);
    }
  }

  method ToCoreContainers(s: array?<Container>) returns (a: array?<CoreContainer>)
    ensures SliceOf(a) == EmptyToNil(CoreAll(SliceOf(s).List()))
    ensures a == null || fresh(a)
  {
    if s == null || s.Length == 0 {
      return null;
    }
    var out := new CoreContainer[s.Length](_ => CoreContainer(ZERO_CONTAINER, None));
    for i := 0 to s.Length
      invariant forall j :: 0 <= j < i ==> out[j] == ToCore(s[j])
    {
      out[i] := ToCoreContainer(s[i]);
    }
    assert out[..] == CoreAll(s[..]);
    return out;
  }

  method FromCoreContainers(k: array?<CoreContainer>) returns (a: array<Container>)
    ensures a[..] == FreshAll(SliceOf(k).List())
    ensures fresh(a)
  {
    var n := if k == null then 0 else k.Length;
    a := new Container[n](_ => ZERO_CONTAINER);
    for i := 0 to n
      invariant forall j :: 0 <= j < i ==> a[j] == FromFresh(k[j])
      invariant forall j :: i <= j < n ==> a[j] == ZERO_CONTAINER
    {
      a[i] := FromCoreContainer(a[i], k[i]);
    }
    assert a[..] == FreshAll(SliceOf(k).List());
  }

  /** The slices of the Kubernetes form, each in an array of its own. */
  method SlicesToCore(s: Pod) returns (
      cs: array?<CoreContainer>, inits: array?<CoreContainer>, vols: array?<CoreValue>, secrets: array<CoreValue>)
    ensures SliceOf(cs) == Meaning(s.View()).containers && SliceOf(inits) == Meaning(s.View()).initContainers
    ensures SliceOf(vols) == Meaning(s.View()).volumes && SliceOf(secrets) == Meaning(s.View()).imagePullSecrets
    ensures (cs == null || fresh(cs)) && (inits == null || fresh(inits))
    ensures (vols == null || fresh(vols)) && fresh(secrets)
  {
    cs := ToCoreContainers(s.containers);
    inits := ToCoreContainers(s.initContainers);
    vols := null;
    if s.volumes != null && s.volumes.Length > 0 {
      vols := CopyOf(s.volumes);
    }
    secrets := CopyOf(s.imagePullSecrets);
  }

  method SlicesFromCore(k: CorePod) returns (
      cs: array<Container>, inits: array<Container>, vols: array<CoreValue>, secrets: array<CoreValue>)
    ensures SliceOf(cs) == Elems(FreshAll(k.View().containers.List()))
    ensures SliceOf(inits) == Elems(FreshAll(k.View().initContainers.List()))
    ensures SliceOf(vols) == NonNil(k.View().volumes) && SliceOf(secrets) == NonNil(k.View().imagePullSecrets)
    ensures fresh(cs) && fresh(inits) && fresh(vols) && fresh(secrets)
  {
    cs := FromCoreContainers(k.containers);
    inits := FromCoreContainers(k.initContainers);
    vols := CopyOf(k.volumes);
    secrets := CopyOf(k.imagePullSecrets);
  }

  /** Sets the optional values the source has. */
  method CopyOptionals(s: Pod, out: CorePod)
    requires out.terminationGracePeriodSeconds.None? && out.shareProcessNamespace.None?
    requires out.automountServiceAccountToken.None?
    modifies out`terminationGracePeriodSeconds, out`shareProcessNamespace, out`automountServiceAccountToken
    ensures out.terminationGracePeriodSeconds == s.terminationGracePeriodSeconds
    ensures out.shareProcessNamespace == s.shareProcessNamespace
    ensures out.automountServiceAccountToken == s.automountServiceAccountToken
  {
    if s.terminationGracePeriodSeconds.Some? {
      out.terminationGracePeriodSeconds := s.terminationGracePeriodSeconds;
    }
    if s.shareProcessNamespace.Some? {
      out.shareProcessNamespace := s.shareProcessNamespace;
    }
    if s.automountServiceAccountToken.Some? {
      out.automountServiceAccountToken := s.automountServiceAccountToken;
    }
  }

  /** Nil for nil; otherwise the pod's meaning, in memory of its own. */
  method ToCorePodSpec(s: Pod?) returns (out: CorePod?)
    ensures s == null <==> out == null
    ensures s != null ==> fresh(out) && out.View() == Meaning(s.View())
    ensures s != null ==> forall a :: a in out.Arrays() ==> a == null || fresh(a)
  {
    if s == null {
      return null;
    }
    var cs, inits, vols, secrets := SlicesToCore(s);
    ghost var m := Meaning(s.View());
    out := new CorePod();
    CopyOptionals(s, out);
    out.SetSlices(cs, inits, vols, secrets);
    assert out.View() == m;
  }

  /** Writes the Kubernetes form into the receiver, in arrays of its own. */
  method FromCorePodSpec(s: Pod, k: CorePod?)
    modifies s
    ensures k == null ==> unchanged(s)
    ensures k != null ==>
      && s.View() == Overwritten(old(s.View()), old(k.View()))
      && s.containers != null && s.initContainers != null && s.volumes != null && s.imagePullSecrets != null
      && fresh(s.containers) && fresh(s.initContainers) && fresh(s.volumes) && fresh(s.imagePullSecrets)
  {
    if k == null {
      return;
    }
    ghost var m := Overwritten(s.View(), k.View());
    var cs, inits, vols, secrets := SlicesFromCore(k);
    s.SetSlices(cs, inits, vols, secrets);
    TakeOptionals(s, k);
    assert s.View() == m;
  }

  /** Takes the optional values there are and keeps the receiver's own where there are none. */
  method TakeOptionals(s: Pod, k: CorePod)
    modifies s`terminationGracePeriodSeconds, s`shareProcessNamespace, s`automountServiceAccountToken
    ensures s.terminationGracePeriodSeconds ==
      OrElse(k.terminationGracePeriodSeconds, old(s.terminationGracePeriodSeconds))
    ensures s.shareProcessNamespace == OrElse(k.shareProcessNamespace, old(s.shareProcessNamespace))
    ensures s.automountServiceAccountToken ==
      OrElse(k.automountServiceAccountToken, old(s.automountServiceAccountToken))
  {
    if k.terminationGracePeriodSeconds.Some? {
      s.terminationGracePeriodSeconds := k.terminationGracePeriodSeconds;
    }
    if k.shareProcessNamespace.Some? {
      s.shareProcessNamespace := k.shareProcessNamespace;
    }
    if k.automountServiceAccountToken.Some? {
      s.automountServiceAccountToken := k.automountServiceAccountToken;
    }
  }

  // ---------- Both versions ----------

  /** The square of the two versions commutes: translating a v1alpha10 pod, and converting it to the hub and translating
      it there, give Kubernetes the same; the two results have no array in common, although the two pods have. */
  method CommutingSquare(src: Pod, hub: Pod) returns (direct: CorePod, viaHub: CorePod)
    requires src != hub
    modifies hub
    ensures direct.View() == viaHub.View() == Meaning(src.View())
    ensures src.View() == old(src.View()) == hub.View()
    ensures forall a :: a in direct.Arrays() * viaHub.Arrays() ==> a == null
  {
    direct := ToCorePodSpec(src);
    ConvertPodSpec(src, hub);
    viaHub := PodSpecs.ToCorePodSpec(hub);
  }

  /** And the other way down. */
  method CommutingSquareDown(hub: Pod, spoke: Pod) returns (direct: CorePod, viaSpoke: CorePod)
    requires hub != spoke
    modifies spoke
    ensures direct.View() == viaSpoke.View() == Meaning(hub.View())
    ensures hub.View() == old(hub.View()) == spoke.View()
    ensures forall a :: a in direct.Arrays() * viaSpoke.Arrays() ==> a == null
  {
    direct := PodSpecs.ToCorePodSpec(hub);
    ConvertPodSpec(hub, spoke);
    viaSpoke := ToCorePodSpec(spoke);
  }

  /** Reading a Kubernetes form into either version gives pods that convert into each other. */
  method ReadByBoth(k: CorePod, spoke: Pod, hub: Pod, converted: Pod)
    requires spoke != hub && converted != spoke && converted != hub && spoke.View() == hub.View()
    modifies spoke, hub, converted
    ensures hub.View() == converted.View() == Overwritten(old(hub.View()), old(k.View()))
  {
    FromCorePodSpec(spoke, k);
    hub.FromCorePodSpec(k);
    ConvertPodSpec(spoke, converted);
  }
}
