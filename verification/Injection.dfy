/** What injection keeps and how injections combine, for single patches and for whole runs of them. */
module Injection {
  import opened Prelude
  import opened JsonPatch
  import opened Items
  import opened Annotations
  import opened Resolve
  import opened Plan
  import opened Marker
  import opened Pods
  import opened Patch
  import opened Refinement

  // ---- the injected document decodes to the injected pod ----

  /** Entries whose body carries the name they are guarded by. */
  ghost predicate SelfNamed(items: seq<Item>) {
    forall i :: 0 <= i < |items| ==> DecodeItem(items[i].body) == Ok(items[i])
  }

  ghost predicate PlanSelfNamed(plan: MutationPlan) {
    SelfNamed(VolumeItems(plan.volumes))
  }

  lemma RenderedItemsSelfNamed(ms: seq<VolumeMount>, es: seq<EnvVar>, cs: seq<InitContainer>)
    ensures SelfNamed(MountItems(ms)) && SelfNamed(EnvItems(es)) && SelfNamed(InitItems(cs))
  {
  }

  lemma {:induction false} FreshSelfNamed(taken: set<string>, items: seq<Item>)
    requires SelfNamed(items)
    ensures SelfNamed(Fresh(taken, items))
  {
    if items != [] {
      assert forall i :: 0 <= i < |items[1..]| ==> items[1..][i] == items[i + 1];
      FreshSelfNamed(taken, items[1..]);
    }
  }

  lemma {:induction false} DecodeBodies(items: seq<Item>)
    requires SelfNamed(items)
    ensures DecodeItems(Bodies(items)) == Ok(items)
  {
    if items != [] {
      assert forall i :: 0 <= i < |items[1..]| ==> items[1..][i] == items[i + 1];
      DecodeBodies(items[1..]);
      assert Bodies(items) == [items[0].body] + Bodies(items[1..]);
      assert items == [items[0]] + items[1..];
    }
  }

  lemma {:induction false} DecodeAppended(js: seq<Json>, xs: seq<Item>, items: seq<Item>)
    requires DecodeItems(js) == Ok(xs) && SelfNamed(items)
    ensures DecodeItems(js + Bodies(items)) == Ok(xs + items)
  {
    if js == [] {
      DecodeBodies(items);
      assert js + Bodies(items) == Bodies(items) && xs + items == items;
    } else {
      DecodeAppended(js[1..], xs[1..], items);
      assert (js + Bodies(items))[1..] == js[1..] + Bodies(items);
      assert xs == [xs[0]] + xs[1..];
      assert [xs[0]] + (xs[1..] + items) == xs + items;
    }
  }

  lemma AddFreshDecodes(m: map<string, Json>, key: string, list: ItemList, items: seq<Item>)
    requires DecodeList(Member(m, key)) == Ok(list) && SelfNamed(items)
    ensures DecodeList(Member(AddFresh(m, key, items), key)) == Ok(AppendFresh(list, items))
  {
    var added := Fresh(Names(list), items);
    FreshSelfNamed(Names(list), items);
    if added != [] {
      var js := if Member(m, key).Arr? then m[key].items else [];
      assert DecodeItems(js) == Ok(list.GetOr([]));
      DecodeAppended(js, list.GetOr([]), added);
    }
  }

  lemma ContainerDecodes(j: Json, c: Container, plan: MutationPlan)
    requires DecodeContainer(j) == Ok(c)
    ensures DecodeContainer(InjectContainerDoc(j, plan)) == Ok(InjectContainer(c, plan))
  {
    ContainerMembers(j, c);
    var mounts, env := MountItems(plan.containerMounts), EnvItems(plan.containerEnv);
    var m1 := AddFresh(j.members, "volumeMounts", mounts);
    RenderedItemsSelfNamed(plan.containerMounts, plan.containerEnv, []);
    AddFreshKeeps(j.members, "volumeMounts", mounts, "env");
    AddFreshKeeps(m1, "env", env, "volumeMounts");
    AddFreshDecodes(j.members, "volumeMounts", c.volumeMounts, mounts);
    AddFreshDecodes(m1, "env", c.env, env);
  }

  lemma InjectFirstSplit(js: seq<Json>, plan: MutationPlan)
    requires js != []
    ensures InjectFirst(js, |js|, plan) == [InjectContainerDoc(js[0], plan)] + InjectFirst(js[1..], |js[1..]|, plan)
  {
  }

  lemma DecodeContainersCons(j: Json, c: Container, js: seq<Json>, cs: seq<Container>)
    requires DecodeContainer(j) == Ok(c) && DecodeContainers(js) == Ok(cs)
    ensures DecodeContainers([j] + js) == Ok([c] + cs)
  {
    assert ([j] + js)[1..] == js;
  }

  lemma DecodeContainersUncons(js: seq<Json>, cs: seq<Container>)
    requires DecodeContainers(js) == Ok(cs) && js != []
    ensures DecodeContainer(js[0]) == Ok(cs[0]) && DecodeContainers(js[1..]) == Ok(cs[1..])
  {
  }

  lemma InjectContainersSplit(cs: seq<Container>, plan: MutationPlan)
    requires cs != []
    ensures InjectContainers(cs, plan) == [InjectContainer(cs[0], plan)] + InjectContainers(cs[1..], plan)
  {
  }

  lemma {:induction false} ContainersDecode(js: seq<Json>, cs: seq<Container>, plan: MutationPlan)
    requires DecodeContainers(js) == Ok(cs)
    ensures DecodeContainers(InjectFirst(js, |js|, plan)) == Ok(InjectContainers(cs, plan))
  {
    if js == [] {
      assert InjectFirst(js, 0, plan) == [] && InjectContainers(cs, plan) == [];
    } else {
      DecodeContainersUncons(js, cs);
      ContainerDecodes(js[0], cs[0], plan);
      ContainersDecode(js[1..], cs[1..], plan);
      InjectFirstSplit(js, plan);
      InjectContainersSplit(cs, plan);
      DecodeContainersCons(
        InjectContainerDoc(js[0], plan), InjectContainer(cs[0], plan),
        InjectFirst(js[1..], |js[1..]|, plan), InjectContainers(cs[1..], plan));
    }
  }

  lemma ContainerListDecodes(m: map<string, Json>, m2: map<string, Json>, cs: seq<Container>, plan: MutationPlan)
    requires DecodeContainerList(Member(m, "containers")) == Ok(cs) && Member(m2, "containers") == Member(m, "containers")
    ensures DecodeContainerList(Member(InjectContainersDoc(m2, plan), "containers")) == Ok(InjectContainers(cs, plan))
  {
    if Member(m, "containers").Arr? {
      ContainersDecode(m["containers"].items, cs, plan);
    } else {
      assert InjectContainers([], plan) == [];
    }
  }

  lemma SpecMembers(m: map<string, Json>, spec: PodSpec)
    ensures DecodeSpec(Obj(m)) == Ok(Some(spec)) <==>
            && DecodeString(Member(m, "serviceAccountName")) == Ok(spec.serviceAccountName)
            && DecodeList(Member(m, "volumes")) == Ok(spec.volumes)
            && DecodeList(Member(m, "initContainers")) == Ok(spec.initContainers)
            && DecodeContainerList(Member(m, "containers")) == Ok(spec.containers)
  {
  }

  lemma SpecKeys(m: map<string, Json>, volumes: seq<Item>, inits: seq<Item>, plan: MutationPlan)
    ensures var m1 := AddFresh(m, "volumes", volumes);
            var m2 := AddFresh(m1, "initContainers", inits);
            var m3 := InjectContainersDoc(m2, plan);
            && Member(m1, "initContainers") == Member(m, "initContainers")
            && Member(m3, "volumes") == Member(m1, "volumes")
            && Member(m3, "initContainers") == Member(m2, "initContainers")
            && Member(m2, "containers") == Member(m, "containers")
            && Member(m3, "serviceAccountName") == Member(m, "serviceAccountName")
  {
  }

  lemma SpecDecodes(m: map<string, Json>, spec: PodSpec, plan: MutationPlan)
    requires DecodeSpec(Obj(m)) == Ok(Some(spec)) && PlanSelfNamed(plan)
    ensures DecodeSpec(Obj(InjectSpecDoc(m, plan))) == Ok(Some(InjectSpec(spec, plan)))
  {
    var volumes, inits := VolumeItems(plan.volumes), InitItems(plan.initContainers);
    var m1 := AddFresh(m, "volumes", volumes);
    SpecMembers(m, spec);
    RenderedItemsSelfNamed([], [], plan.initContainers);
    SpecKeys(m, volumes, inits, plan);
    AddFreshDecodes(m, "volumes", spec.volumes, volumes);
    AddFreshDecodes(m1, "initContainers", spec.initContainers, inits);
    ContainerListDecodes(m, AddFresh(m1, "initContainers", inits), spec.containers, plan);
    SpecMembers(InjectSpecDoc(m, plan), InjectSpec(spec, plan));
  }

  lemma AnnotationsDecode(m: map<string, Json>, annotations: Scope, plan: MutationPlan)
    requires DecodeAnnotations(Member(m, "annotations")) == Ok(annotations)
    ensures DecodeAnnotations(Member(InjectMetaDoc(m, plan), "annotations")) ==
            Ok(InjectAnnotations(annotations, plan.injectedProviders))
  {
    InjectedMeta(m, annotations, plan);
    var old_ := match Member(m, "annotations") case Obj(a) => a case _ => map[];
    var new_ := InjectMetaDoc(m, plan)["annotations"].members;
    var expected := InjectAnnotations(annotations, plan.injectedProviders).value;
    assert new_.Keys == old_.Keys + {K_INJECTED} == expected.Keys;
    assert (map k | k in new_ :: new_[k].s) == expected;
  }

  lemma PodFromMembers(d: map<string, Json>, pod: Pod)
    requires Member(d, "metadata").Obj?
    requires DecodeAnnotations(Member(d["metadata"].members, "annotations")) == Ok(pod.annotations)
    requires DecodeString(Member(d["metadata"].members, "namespace")) == Ok(pod.namespace)
    requires DecodeOwnerList(Member(d["metadata"].members, "ownerReferences")) == Ok(pod.ownerReferences)
    requires DecodeSpec(Member(d, "spec")) == Ok(pod.spec)
    ensures DecodePod(Obj(d)) == Ok(pod)
  {
  }

  /** The patched document reads as the typed injection of what the original read as. */
  lemma InjectionDecodes(doc: Json, pod: Pod, plan: MutationPlan)
    requires DecodePod(doc) == Ok(pod) && Patchable(doc, plan) && PlanSelfNamed(plan)
    ensures DecodePod(InjectDoc(doc, plan)) == Ok(InjectPod(pod, plan))
  {
    PodMembers(doc, pod);
    var meta := doc.members["metadata"].members;
    AnnotationsDecode(meta, pod.annotations, plan);
    if HasObject(doc, "spec") {
      SpecMembers(doc.members["spec"].members, pod.spec.value);
      SpecDecodes(doc.members["spec"].members, pod.spec.value, plan);
    }
    var d := InjectDoc(doc, plan).members;
    assert d["metadata"] == Obj(InjectMetaDoc(meta, plan));
    assert Member(InjectMetaDoc(meta, plan), "namespace") == Member(meta, "namespace");
    assert Member(InjectMetaDoc(meta, plan), "ownerReferences") == Member(meta, "ownerReferences");
    PodFromMembers(d, InjectPod(pod, plan));
  }
}
