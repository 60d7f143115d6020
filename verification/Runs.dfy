/** Reinvocation, composition, and what every run of patches keeps. */
module Runs {
  import opened Prelude
  import opened JsonPatch
  import opened Items
  import opened Annotations
  import opened Resolve
  import opened Plan
  import opened Marker
  import opened Pods
  import opened Patch
  import opened Refinement
  import opened Injection

  // ---- reinvocation ----

  lemma InjectContainersIdempotent(cs: seq<Container>, plan: MutationPlan)
    ensures InjectContainers(InjectContainers(cs, plan), plan) == InjectContainers(cs, plan)
  {
    forall i | 0 <= i < |cs|
      ensures InjectContainer(InjectContainer(cs[i], plan), plan) == InjectContainer(cs[i], plan)
    {
      AppendFreshIdempotent(cs[i].volumeMounts, MountItems(plan.containerMounts));
      AppendFreshIdempotent(cs[i].env, EnvItems(plan.containerEnv));
    }
  }

  lemma InjectAnnotationsCompose(a: Scope, ids: seq<ProviderId>, ids': seq<ProviderId>)
    ensures InjectAnnotations(InjectAnnotations(a, ids), ids') == InjectAnnotations(a, ids + ids')
    ensures InjectAnnotations(InjectAnnotations(a, ids), ids) == InjectAnnotations(a, ids)
  {
    MarkerCompose(OldMarker(a), ids, ids');
    var m, marker := a.GetOr(map[]), MarkerOf(OldMarker(a), ids);
    assert OldMarker(InjectAnnotations(a, ids)) == Some(marker);
    assert m[K_INJECTED := marker][K_INJECTED := MarkerOf(Some(marker), ids')] == m[K_INJECTED := MarkerOf(Some(marker), ids')];
    assert m[K_INJECTED := marker][K_INJECTED := marker] == m[K_INJECTED := marker];
  }

  lemma InjectPodIdempotent(pod: Pod, plan: MutationPlan)
    ensures InjectPod(InjectPod(pod, plan), plan) == InjectPod(pod, plan)
  {
    InjectAnnotationsCompose(pod.annotations, plan.injectedProviders, []);
    if pod.spec.Some? {
      AppendFreshIdempotent(pod.spec.value.volumes, VolumeItems(plan.volumes));
      AppendFreshIdempotent(pod.spec.value.initContainers, InitItems(plan.initContainers));
      InjectContainersIdempotent(pod.spec.value.containers, plan);
    }
  }

  lemma ListOpsNothing(path: string, list: ItemList, items: seq<Item>)
    ensures ListOps(path, AppendFresh(list, items), items) == []
  {
    AppendFreshIdempotent(list, items);
  }

  lemma {:induction false} ContainersOpsNothing(cs: seq<Container>, n: nat, plan: MutationPlan)
    requires n <= |cs|
    ensures ContainersOps(InjectContainers(cs, plan), n, plan) == []
  {
    if n > 0 {
      var c, path := cs[n - 1], ContainerPath(n - 1);
      ContainersOpsNothing(cs, n - 1, plan);
      ListOpsNothing(Under(path, "volumeMounts"), c.volumeMounts, MountItems(plan.containerMounts));
      ListOpsNothing(Under(path, "env"), c.env, EnvItems(plan.containerEnv));
      assert InjectContainers(cs, plan)[n - 1] == InjectContainer(c, plan);
    }
  }

  /** Built against the injected pod, the same plan asks for nothing but the marker it finds there. */
  lemma RebuildIsMarkerOnly(pod: Pod, plan: MutationPlan)
    requires pod.spec.Some? || (plan.volumes == [] && plan.initContainers == [])
    ensures var marker := MarkerOf(OldMarker(pod.annotations), plan.injectedProviders);
            && BuildOps(InjectPod(pod, plan), plan) == [MarkerOp(true, marker)]
            && OldMarker(InjectPod(pod, plan).annotations) == Some(marker)
  {
    MarkerCompose(OldMarker(pod.annotations), plan.injectedProviders, []);
    ListOpsNothing(SpecPath("volumes"), pod.Volumes(), VolumeItems(plan.volumes));
    ListOpsNothing(SpecPath("initContainers"), pod.InitContainers(), InitItems(plan.initContainers));
    ContainersOpsNothing(pod.Containers(), |pod.Containers()|, plan);
    if pod.spec.None? {
      OpsForMissingList(SpecPath("volumes"), VolumeItems(plan.volumes));
      OpsForMissingList(SpecPath("initContainers"), InitItems(plan.initContainers));
    }
  }

  lemma MarkerRewriteIsNoOp(d: map<string, Json>, marker: string)
    requires Member(d, "metadata").Obj? && Member(d["metadata"].members, "annotations").Obj?
    requires Member(d["metadata"].members["annotations"].members, K_INJECTED) == Str(marker)
    ensures Apply(Obj(d), [MarkerOp(true, marker)]) == Some(Obj(d))
  {
    UpdateMarker(d, marker);
    var m := d["metadata"].members;
    var a := m["annotations"].members;
    assert a[K_INJECTED := Str(marker)] == a;
    assert m["annotations" := Obj(a)] == m;
    assert d["metadata" := Obj(m)] == d;
  }

  /**
   * Webhook reinvocation is a no-op: the patched document decodes, the patch rebuilt for it is the marker
   * alone, and applying that leaves the document exactly as it is.
   */
  lemma Reinvocation(doc: Json, pod: Pod, plan: MutationPlan)
    requires DecodePod(doc) == Ok(pod) && Patchable(doc, plan) && PlanSelfNamed(plan)
    ensures var doc', pod' := InjectDoc(doc, plan), InjectPod(pod, plan);
            && Apply(doc, BuildOps(pod, plan)) == Some(doc')
            && DecodePod(doc') == Ok(pod')
            && |BuildOps(pod', plan)| == 1
            && Apply(doc', BuildOps(pod', plan)) == Some(doc')
  {
    PodMembers(doc, pod);
    PatchAppliesExactly(doc, pod, plan);
    InjectionDecodes(doc, pod, plan);
    RebuildIsMarkerOnly(pod, plan);
    InjectedMeta(doc.members["metadata"].members, pod.annotations, plan);
    MarkerRewriteIsNoOp(InjectDoc(doc, plan).members, MarkerOf(OldMarker(pod.annotations), plan.injectedProviders));
  }

  // ---- composition ----

  /** No name is asked for by both plans. */
  ghost predicate DisjointNames(a: MutationPlan, b: MutationPlan) {
    && NamesOf(VolumeItems(a.volumes)) !! NamesOf(VolumeItems(b.volumes))
    && NamesOf(MountItems(a.containerMounts)) !! NamesOf(MountItems(b.containerMounts))
    && NamesOf(EnvItems(a.containerEnv)) !! NamesOf(EnvItems(b.containerEnv))
    && NamesOf(InitItems(a.initContainers)) !! NamesOf(InitItems(b.initContainers))
  }

  lemma ItemsAppend(a: MutationPlan, b: MutationPlan)
    ensures var c := Append(a, b);
            && VolumeItems(c.volumes) == VolumeItems(a.volumes) + VolumeItems(b.volumes)
            && MountItems(c.containerMounts) == MountItems(a.containerMounts) + MountItems(b.containerMounts)
            && EnvItems(c.containerEnv) == EnvItems(a.containerEnv) + EnvItems(b.containerEnv)
            && InitItems(c.initContainers) == InitItems(a.initContainers) + InitItems(b.initContainers)
  {
  }

  lemma InjectContainersCompose(cs: seq<Container>, a: MutationPlan, b: MutationPlan)
    requires DisjointNames(a, b)
    ensures InjectContainers(InjectContainers(cs, a), b) == InjectContainers(cs, Append(a, b))
  {
    ItemsAppend(a, b);
    forall i | 0 <= i < |cs|
      ensures InjectContainer(InjectContainer(cs[i], a), b) == InjectContainer(cs[i], Append(a, b))
    {
      AppendFreshCompose(cs[i].volumeMounts, MountItems(a.containerMounts), MountItems(b.containerMounts));
      AppendFreshCompose(cs[i].env, EnvItems(a.containerEnv), EnvItems(b.containerEnv));
    }
  }

  lemma InjectAppend(pod: Pod, a: MutationPlan, b: MutationPlan)
    requires DisjointNames(a, b)
    ensures InjectPod(InjectPod(pod, a), b) == InjectPod(pod, Append(a, b))
  {
    InjectAnnotationsCompose(pod.annotations, a.injectedProviders, b.injectedProviders);
    ItemsAppend(a, b);
    if pod.spec.Some? {
      AppendFreshCompose(pod.spec.value.volumes, VolumeItems(a.volumes), VolumeItems(b.volumes));
      AppendFreshCompose(pod.spec.value.initContainers, InitItems(a.initContainers), InitItems(b.initContainers));
      InjectContainersCompose(pod.spec.value.containers, a, b);
    }
  }

  lemma InitItemsCons(c: InitContainer, cs: seq<InitContainer>)
    ensures InitItems([c] + cs) == [c.ToItem()] + InitItems(cs)
  {
  }

  lemma {:induction false} InsertItems(c: InitContainer, cs: seq<InitContainer>)
    ensures multiset(InitItems(InsertByOrder(c, cs))) == multiset{c.ToItem()} + multiset(InitItems(cs))
  {
    InitItemsCons(c, cs);
    if cs != [] && c.order > cs[0].order {
      InsertItems(c, cs[1..]);
      InitItemsCons(cs[0], InsertByOrder(c, cs[1..]));
      InitItemsCons(cs[0], cs[1..]);
      assert cs == [cs[0]] + cs[1..];
    }
  }

  lemma {:induction false} SortItems(cs: seq<InitContainer>)
    ensures multiset(InitItems(SortByOrder(cs))) == multiset(InitItems(cs))
  {
    if cs != [] {
      SortItems(cs[1..]);
      InsertItems(cs[0], SortByOrder(cs[1..]));
      InitItemsCons(cs[0], cs[1..]);
      assert cs == [cs[0]] + cs[1..];
    }
  }

  lemma MergedItems(ps: seq<ProviderPlan>, qs: seq<ProviderPlan>)
    ensures multiset(InitItems(Merged(ps + qs).initContainers)) ==
            multiset(InitItems(Append(Merged(ps), Merged(qs)).initContainers))
  {
    var a, b := Concatenated(ps), Concatenated(qs);
    ConcatenatedAppend(ps, qs);
    ItemsAppend(a, b);
    ItemsAppend(Merged(ps), Merged(qs));
    SortItems(a.initContainers);
    SortItems(b.initContainers);
    SortItems(a.initContainers + b.initContainers);
  }

  /** Equal but for the order of the init containers. */
  ghost predicate SameUpToInitOrder(p: Pod, q: Pod) {
    && p.(spec := None) == q.(spec := None)
    && (p.spec.None? <==> q.spec.None?)
    && (p.spec.Some? ==>
          && p.spec.value.(initContainers := None) == q.spec.value.(initContainers := None)
          && multiset(p.InitContainers().GetOr([])) == multiset(q.InitContainers().GetOr([])))
  }

  lemma ReorderedInits(pod: Pod, a: MutationPlan, b: MutationPlan)
    requires a.(initContainers := []) == b.(initContainers := [])
    requires multiset(InitItems(a.initContainers)) == multiset(InitItems(b.initContainers))
    ensures SameUpToInitOrder(InjectPod(pod, a), InjectPod(pod, b))
  {
    if pod.spec.Some? {
      var list := pod.spec.value.initContainers;
      FreshPermutation(Names(list), InitItems(a.initContainers), InitItems(b.initContainers));
      var fa, fb := Fresh(Names(list), InitItems(a.initContainers)), Fresh(Names(list), InitItems(b.initContainers));
      assert multiset(list.GetOr([]) + fa) == multiset(list.GetOr([]) + fb);
      assert fa == [] <==> fb == [] by {
        assert |multiset(fa)| == |multiset(fb)|;
      }
      InjectContainersSame(pod.spec.value.containers, a, b);
    }
  }

  lemma InjectContainersSame(cs: seq<Container>, a: MutationPlan, b: MutationPlan)
    requires a.containerMounts == b.containerMounts && a.containerEnv == b.containerEnv
    ensures InjectContainers(cs, a) == InjectContainers(cs, b)
  {
    forall i | 0 <= i < |cs|
      ensures InjectContainer(cs[i], a) == InjectContainer(cs[i], b)
    {
    }
  }

  /**
   * Patching once with everything is patching in two rounds: the same pod but for the order of the init
   * containers, and exactly the same pod when no order in the first round exceeds one in the second.
   */
  lemma MergeComposes(pod: Pod, ps: seq<ProviderPlan>, qs: seq<ProviderPlan>)
    requires DisjointNames(Merged(ps), Merged(qs))
    ensures var once := InjectPod(pod, Merged(ps + qs));
            var twice := InjectPod(InjectPod(pod, Merged(ps)), Merged(qs));
            && SameUpToInitOrder(once, twice)
            && ((forall a, b :: a in Merged(ps).initContainers && b in Merged(qs).initContainers ==> a.order <= b.order)
                  ==> once == twice)
  {
    MergeAppend(ps, qs);
    MergedItems(ps, qs);
    InjectAppend(pod, Merged(ps), Merged(qs));
    ReorderedInits(pod, Merged(ps + qs), Append(Merged(ps), Merged(qs)));
  }
}
