/** What runs of patches leave alone, and what they guarantee about the entries they add. */
module Frames {
  import opened Prelude
  import opened JsonPatch
  import opened Items
  import opened Annotations
  import opened Resolve
  import opened Plan
  import opened Marker
  import opened Pods
  import opened Patch
  import opened Refinement
  import opened Injection

  // ---- the frame, on documents ----

  function Elements(m: map<string, Json>, key: string): seq<Json> {
    if Member(m, key).Arr? then m[key].items else []
  }

  ghost predicate SameBut(a: map<string, Json>, b: map<string, Json>, keys: set<string>) {
    forall k :: k !in keys ==> Member(a, k) == Member(b, k)
  }

  /** Only the mounts and the environment grow, at their ends. */
  ghost predicate ContainerExtends(a: Json, b: Json) {
    if a.Obj? then
      && b.Obj?
      && SameBut(a.members, b.members, {"volumeMounts", "env"})
      && Elements(a.members, "volumeMounts") <= Elements(b.members, "volumeMounts")
      && Elements(a.members, "env") <= Elements(b.members, "env")
    else a == b
  }

  /** The same containers in the same order. */
  ghost predicate ContainersExtend(a: Json, b: Json) {
    if a.Arr? then
      && b.Arr?
      && |a.items| == |b.items|
      && forall i :: 0 <= i < |a.items| ==> ContainerExtends(a.items[i], b.items[i])
    else a == b
  }

  ghost predicate SpecExtends(a: map<string, Json>, b: map<string, Json>) {
    && SameBut(a, b, {"volumes", "initContainers", "containers"})
    && Elements(a, "volumes") <= Elements(b, "volumes")
    && Elements(a, "initContainers") <= Elements(b, "initContainers")
    && ContainersExtend(Member(a, "containers"), Member(b, "containers"))
  }

  function AnnotationMembers(meta: map<string, Json>): map<string, Json> {
    match Member(meta, "annotations") case Obj(a) => a case _ => map[]
  }

  ghost predicate MetaExtends(a: map<string, Json>, b: map<string, Json>) {
    && SameBut(a, b, {"annotations"})
    && SameBut(AnnotationMembers(a), AnnotationMembers(b), {K_INJECTED})
  }

  /** `b` is `a` with entries added at the end of the five kinds of list and the marker rewritten. */
  ghost predicate DocExtends(a: Json, b: Json) {
    && HasObject(a, "metadata") && HasObject(a, "spec")
    && HasObject(b, "metadata") && HasObject(b, "spec")
    && SameBut(a.members, b.members, {"metadata", "spec"})
    && MetaExtends(a.members["metadata"].members, b.members["metadata"].members)
    && SpecExtends(a.members["spec"].members, b.members["spec"].members)
  }

  lemma DocExtendsReflexive(a: Json)
    requires HasObject(a, "metadata") && HasObject(a, "spec")
    ensures DocExtends(a, a)
  {
  }

  lemma ContainerExtendsTransitive(a: Json, b: Json, c: Json)
    requires ContainerExtends(a, b) && ContainerExtends(b, c)
    ensures ContainerExtends(a, c)
  {
    if a.Obj? {
      PrefixTransitive(Elements(a.members, "volumeMounts"), Elements(b.members, "volumeMounts"), Elements(c.members, "volumeMounts"));
      PrefixTransitive(Elements(a.members, "env"), Elements(b.members, "env"), Elements(c.members, "env"));
    }
  }

  lemma PrefixTransitive<T>(a: seq<T>, b: seq<T>, c: seq<T>)
    requires a <= b && b <= c
    ensures a <= c
  {
  }

  lemma SpecExtendsTransitive(a: map<string, Json>, b: map<string, Json>, c: map<string, Json>)
    requires SpecExtends(a, b) && SpecExtends(b, c)
    ensures SpecExtends(a, c)
  {
    PrefixTransitive(Elements(a, "volumes"), Elements(b, "volumes"), Elements(c, "volumes"));
    PrefixTransitive(Elements(a, "initContainers"), Elements(b, "initContainers"), Elements(c, "initContainers"));
    var x, y, z := Member(a, "containers"), Member(b, "containers"), Member(c, "containers");
    if x.Arr? {
      forall i | 0 <= i < |x.items|
        ensures ContainerExtends(x.items[i], z.items[i])
      {
        ContainerExtendsTransitive(x.items[i], y.items[i], z.items[i]);
      }
    }
  }

  lemma DocExtendsTransitive(a: Json, b: Json, c: Json)
    requires DocExtends(a, b) && DocExtends(b, c)
    ensures DocExtends(a, c)
  {
    SpecExtendsTransitive(a.members["spec"].members, b.members["spec"].members, c.members["spec"].members);
  }

  lemma AddFreshExtends(m: map<string, Json>, key: string, items: seq<Item>)
    ensures Elements(m, key) <= Elements(AddFresh(m, key, items), key)
    ensures SameBut(m, AddFresh(m, key, items), {key})
    ensures forall k :: k != key ==> Elements(m, k) == Elements(AddFresh(m, key, items), k)
  {
  }

  lemma ContainerDocExtends(c: Json, plan: MutationPlan)
    ensures ContainerExtends(c, InjectContainerDoc(c, plan))
  {
    if c.Obj? {
      var m1 := AddFresh(c.members, "volumeMounts", MountItems(plan.containerMounts));
      AddFreshExtends(c.members, "volumeMounts", MountItems(plan.containerMounts));
      AddFreshExtends(m1, "env", EnvItems(plan.containerEnv));
    }
  }

  lemma SpecDocExtends(m: map<string, Json>, plan: MutationPlan)
    ensures SpecExtends(m, InjectSpecDoc(m, plan))
  {
    var volumes, inits := VolumeItems(plan.volumes), InitItems(plan.initContainers);
    var m1 := AddFresh(m, "volumes", volumes);
    var m2 := AddFresh(m1, "initContainers", inits);
    AddFreshExtends(m, "volumes", volumes);
    AddFreshExtends(m1, "initContainers", inits);
    var x := Member(m, "containers");
    assert Member(m2, "containers") == x;
    if x.Arr? {
      forall i | 0 <= i < |x.items|
        ensures ContainerExtends(x.items[i], InjectFirst(x.items, |x.items|, plan)[i])
      {
        ContainerDocExtends(x.items[i], plan);
      }
    }
  }

  lemma InjectDocExtends(doc: Json, plan: MutationPlan)
    requires HasObject(doc, "metadata") && HasObject(doc, "spec")
    ensures DocExtends(doc, InjectDoc(doc, plan))
  {
    SpecDocExtends(doc.members["spec"].members, plan);
  }

  // ---- names and the marker, on typed pods ----

  ghost predicate DistinctNames(list: ItemList) {
    Distinct(NameSeq(list.GetOr([])))
  }

  /** No list of the pod names anything twice. */
  ghost predicate NamesDistinct(pod: Pod) {
    && DistinctNames(pod.Volumes())
    && DistinctNames(pod.InitContainers())
    && forall i :: 0 <= i < |pod.Containers()| ==>
         DistinctNames(pod.Containers()[i].volumeMounts) && DistinctNames(pod.Containers()[i].env)
  }

  ghost predicate PlanNamesDistinct(plan: MutationPlan) {
    && Distinct(NameSeq(VolumeItems(plan.volumes)))
    && Distinct(NameSeq(MountItems(plan.containerMounts)))
    && Distinct(NameSeq(EnvItems(plan.containerEnv)))
    && Distinct(NameSeq(InitItems(plan.initContainers)))
  }

  lemma InjectKeepsNamesDistinct(pod: Pod, plan: MutationPlan)
    requires NamesDistinct(pod) && PlanNamesDistinct(plan)
    ensures NamesDistinct(InjectPod(pod, plan))
  {
    if pod.spec.Some? {
      AppendFreshDistinct(pod.spec.value.volumes, VolumeItems(plan.volumes));
      AppendFreshDistinct(pod.spec.value.initContainers, InitItems(plan.initContainers));
      var cs := pod.Containers();
      forall i | 0 <= i < |cs|
        ensures DistinctNames(InjectContainer(cs[i], plan).volumeMounts) && DistinctNames(InjectContainer(cs[i], plan).env)
      {
        AppendFreshDistinct(cs[i].volumeMounts, MountItems(plan.containerMounts));
        AppendFreshDistinct(cs[i].env, EnvItems(plan.containerEnv));
      }
    }
  }

  // ---- runs ----

  /** Documents patched again and again, each time with a plan of its own; `None` when a step fails. */
  function RunDocs(doc: Json, plans: seq<MutationPlan>): Option<Json>
    decreases |plans|
  {
    if plans == [] then Some(doc)
    else match DecodePod(doc)
      case Err(_) => None
      case Ok(pod) =>
        match Apply(doc, BuildOps(pod, plans[0]))
        case None => None
        case Some(next) => RunDocs(next, plans[1..])
  }

  function AllProviders(plans: seq<MutationPlan>): seq<ProviderId> {
    if plans == [] then [] else plans[0].injectedProviders + AllProviders(plans[1..])
  }

  /** `end` reads as a pod, extends `doc` and carries its marker names plus those of `ids`. */
  ghost predicate Kept(doc: Json, end: Json, ids: seq<ProviderId>) {
    && DecodePod(doc).Ok? && DecodePod(end).Ok?
    && DocExtends(doc, end)
    && NamesIn(OldMarker(DecodePod(end).value.annotations)) ==
       NamesIn(OldMarker(DecodePod(doc).value.annotations)) + Abbrs(ids)
  }

  lemma StepKeeps(doc: Json, pod: Pod, plan: MutationPlan)
    requires DecodePod(doc) == Ok(pod) && HasObject(doc, "metadata") && HasObject(doc, "spec") && PlanSelfNamed(plan)
    ensures Apply(doc, BuildOps(pod, plan)) == Some(InjectDoc(doc, plan))
    ensures DecodePod(InjectDoc(doc, plan)) == Ok(InjectPod(pod, plan))
    ensures Kept(doc, InjectDoc(doc, plan), plan.injectedProviders)
  {
    PatchAppliesExactly(doc, pod, plan);
    InjectionDecodes(doc, pod, plan);
    InjectDocExtends(doc, plan);
    MarkerRoundTrip(OldMarker(pod.annotations), plan.injectedProviders);
  }

  lemma KeptTransitive(a: Json, b: Json, c: Json, ids: seq<ProviderId>, ids': seq<ProviderId>)
    requires Kept(a, b, ids) && Kept(b, c, ids')
    ensures Kept(a, c, ids + ids')
  {
    DocExtendsTransitive(a, b, c);
    AbbrsConcat(ids, ids');
  }

  /**
   * Any run of any plans succeeds and keeps: the original lists as prefixes, the containers, every other
   * member and annotation; and the marker holds what it held plus every injected provider.
   */
  lemma {:induction false} RunInvariant(doc: Json, plans: seq<MutationPlan>)
    requires DecodePod(doc).Ok? && HasObject(doc, "metadata") && HasObject(doc, "spec")
    requires forall i :: 0 <= i < |plans| ==> PlanSelfNamed(plans[i])
    ensures RunDocs(doc, plans).Some? && Kept(doc, RunDocs(doc, plans).value, AllProviders(plans))
    decreases |plans|
  {
    if plans == [] {
      DocExtendsReflexive(doc);
    } else {
      var doc1 := InjectDoc(doc, plans[0]);
      StepKeeps(doc, DecodePod(doc).value, plans[0]);
      RunInvariant(doc1, plans[1..]);
      KeptTransitive(doc, doc1, RunDocs(doc1, plans[1..]).value, plans[0].injectedProviders, AllProviders(plans[1..]));
    }
  }

  /** A run of plans without repeated names keeps names distinct on a pod that starts so. */
  lemma {:induction false} RunKeepsNamesDistinct(doc: Json, plans: seq<MutationPlan>)
    requires DecodePod(doc).Ok? && HasObject(doc, "metadata") && HasObject(doc, "spec")
    requires NamesDistinct(DecodePod(doc).value)
    requires forall i :: 0 <= i < |plans| ==> PlanSelfNamed(plans[i]) && PlanNamesDistinct(plans[i])
    ensures RunDocs(doc, plans).Some? && DecodePod(RunDocs(doc, plans).value).Ok?
    ensures NamesDistinct(DecodePod(RunDocs(doc, plans).value).value)
    decreases |plans|
  {
    if plans != [] {
      StepKeeps(doc, DecodePod(doc).value, plans[0]);
      InjectKeepsNamesDistinct(DecodePod(doc).value, plans[0]);
      RunKeepsNamesDistinct(InjectDoc(doc, plans[0]), plans[1..]);
    }
  }

  // ---- mounts resolve, init containers run in order ----

  /** Every mount the plan asks for, anywhere, is of a volume the plan asks for. */
  ghost predicate MountsCovered(plan: MutationPlan) {
    var volumes := NamesOf(VolumeItems(plan.volumes));
    && NamesOf(MountItems(plan.containerMounts)) <= volumes
    && forall c :: c in plan.initContainers ==> NamesOf(MountItems(c.mounts)) <= volumes
  }

  function Added(before: ItemList, after: ItemList): seq<Item>
    requires |before.GetOr([])| <= |after.GetOr([])|
  {
    after.GetOr([])[|before.GetOr([])|..]
  }

  lemma AddedIsFresh(list: ItemList, items: seq<Item>)
    ensures list.GetOr([]) <= AppendFresh(list, items).GetOr([])
    ensures Added(list, AppendFresh(list, items)) == Fresh(Names(list), items)
  {
  }

  /**
   * Whatever was on the pod before, after patching no planned mount dangles: every mount added to a main
   * container, every planned mount found there already, and every mount of an init container of the plan
   * names a volume of the patched pod.
   */
  lemma NoDanglingMounts(pod: Pod, plan: MutationPlan)
    requires MountsCovered(plan) && pod.spec.Some?
    ensures var volumes := Names(InjectPod(pod, plan).Volumes());
            && (forall i :: 0 <= i < |pod.Containers()| ==>
                  var before, after := pod.Containers()[i].volumeMounts, InjectPod(pod, plan).Containers()[i].volumeMounts;
                  && before.GetOr([]) <= after.GetOr([])
                  && NamesOf(MountItems(plan.containerMounts)) <= Names(after)
                  && NamesOf(MountItems(plan.containerMounts)) <= volumes
                  && NamesOf(Added(before, after)) <= volumes)
            && (forall c :: c in plan.initContainers ==> NamesOf(MountItems(c.mounts)) <= volumes)
  {
    AppendFreshFacts(pod.spec.value.volumes, VolumeItems(plan.volumes));
    var cs := pod.Containers();
    forall i | 0 <= i < |cs|
      ensures var before, after := cs[i].volumeMounts, InjectPod(pod, plan).Containers()[i].volumeMounts;
              && before.GetOr([]) <= after.GetOr([])
              && NamesOf(MountItems(plan.containerMounts)) <= Names(after)
              && NamesOf(Added(before, after)) <= NamesOf(MountItems(plan.containerMounts))
    {
      AppendFreshFacts(cs[i].volumeMounts, MountItems(plan.containerMounts));
      AddedIsFresh(cs[i].volumeMounts, MountItems(plan.containerMounts));
      FreshMembers(Names(cs[i].volumeMounts), MountItems(plan.containerMounts));
    }
  }

  /** The init containers of the plan that are not on the pod yet. */
  function FreshInits(taken: set<string>, cs: seq<InitContainer>): seq<InitContainer> {
    if cs == [] then []
    else (if cs[0].name in taken then [] else [cs[0]]) + FreshInits(taken, cs[1..])
  }

  lemma {:induction false} FreshInitsMembers(taken: set<string>, cs: seq<InitContainer>)
    ensures forall c :: c in FreshInits(taken, cs) <==> c in cs && c.name !in taken
  {
    if cs != [] {
      FreshInitsMembers(taken, cs[1..]);
      assert cs == [cs[0]] + cs[1..];
    }
  }

  lemma {:induction false} FreshInitsItems(taken: set<string>, cs: seq<InitContainer>)
    ensures InitItems(FreshInits(taken, cs)) == Fresh(taken, InitItems(cs))
  {
    if cs != [] {
      FreshInitsItems(taken, cs[1..]);
      assert InitItems(cs) == [cs[0].ToItem()] + InitItems(cs[1..]);
      assert InitItems([cs[0]] + FreshInits(taken, cs[1..])) == [cs[0].ToItem()] + InitItems(FreshInits(taken, cs[1..]));
    }
  }

  lemma {:induction false} FreshInitsSorted(taken: set<string>, cs: seq<InitContainer>)
    requires OrderSorted(cs)
    ensures OrderSorted(FreshInits(taken, cs))
  {
    if cs != [] {
      var tail := FreshInits(taken, cs[1..]);
      FreshInitsSorted(taken, cs[1..]);
      FreshInitsMembers(taken, cs[1..]);
      forall j | 0 <= j < |tail|
        ensures cs[0].order <= tail[j].order
      {
        assert tail[j] in tail;
        assert tail[j] in cs[1..];
      }
    }
  }

  /** The injected init containers come in order: everything of a lower order precedes everything of a higher. */
  lemma InjectedInitsInOrder(pod: Pod, plans: seq<ProviderPlan>)
    requires pod.spec.Some?
    ensures var before := pod.InitContainers();
            var after := InjectPod(pod, Merged(plans)).InitContainers();
            var added := FreshInits(Names(before), Merged(plans).initContainers);
            && after.GetOr([]) == before.GetOr([]) + InitItems(added)
            && OrderSorted(added)
            && multiset(Merged(plans).initContainers) == multiset(Concatenated(plans).initContainers)
            && forall c :: c in added <==> c in Concatenated(plans).initContainers && c.name !in Names(before)
  {
    var all := Concatenated(plans).initContainers;
    SortFacts(all);
    FreshInitsItems(Names(pod.InitContainers()), Merged(plans).initContainers);
    FreshInitsSorted(Names(pod.InitContainers()), Merged(plans).initContainers);
    FreshInitsMembers(Names(pod.InitContainers()), Merged(plans).initContainers);
    assert forall c :: c in Merged(plans).initContainers <==> c in multiset(Merged(plans).initContainers);
    assert forall c :: c in all <==> c in multiset(all);
  }
}
