/** Turning a plan into patch operations for a pod, and the direct injection those operations amount to. */
module Patch {
  import opened Prelude
  import opened Text
  import opened JsonPatch
  import opened Items
  import opened Annotations
  import opened Resolve
  import opened Plan
  import opened Marker
  import opened Pods

  // ---- the operations ----

  /** `{path}/{key}` */
  function Under(path: string, key: string): string {
    path + ("/" + key)
  }

  function SpecPath(key: string): string {
    Under(Under("", "spec"), key)
  }

  function ContainerPath(i: nat): string {
    Under(SpecPath("containers"), Decimal(i))
  }

  function AnnotationsPath(): string {
    Under(Under("", "metadata"), "annotations")
  }

  /** `~1` stands for the `/` of the marker key. */
  const ESCAPED_MARKER_KEY := "cwii.dev~1injected"

  /** The paths spelled out. */
  lemma PathLiterals()
    ensures SpecPath("volumes") == "/spec/volumes"
    ensures SpecPath("initContainers") == "/spec/initContainers"
    ensures SpecPath("containers") == "/spec/containers"
    ensures AnnotationsPath() == "/metadata/annotations"
  {
  }

  function AppendOps(path: string, items: seq<Json>): (r: seq<Op>)
    ensures |r| == |items|
  {
    seq(|items|, i requires 0 <= i < |items| => Add(Under(path, "-"), items[i]))
  }

  /** `add_array`: append item by item, or add the whole array when there is none yet. */
  function AddArrayOps(path: string, exists_: bool, items: seq<Json>): seq<Op> {
    if items == [] then []
    else if exists_ then AppendOps(path, items)
    else [Add(path, Arr(items))]
  }

  function FreshBodies(list: ItemList, items: seq<Item>): seq<Json> {
    Bodies(Fresh(Names(list), items))
  }

  function ListOps(path: string, list: ItemList, items: seq<Item>): seq<Op> {
    AddArrayOps(path, list.Some?, FreshBodies(list, items))
  }

  function ContainerOps(c: Container, i: nat, plan: MutationPlan): seq<Op> {
    ListOps(Under(ContainerPath(i), "volumeMounts"), c.volumeMounts, MountItems(plan.containerMounts))
    + ListOps(Under(ContainerPath(i), "env"), c.env, EnvItems(plan.containerEnv))
  }

  /** The operations of the first `n` containers. */
  function ContainersOps(cs: seq<Container>, n: nat, plan: MutationPlan): seq<Op>
    requires n <= |cs|
  {
    if n == 0 then [] else ContainersOps(cs, n - 1, plan) + ContainerOps(cs[n - 1], n - 1, plan)
  }

  function OldMarker(annotations: Scope): Option<string> {
    Lookup(annotations, K_INJECTED)
  }

  function MarkerOp(annotated: bool, marker: string): Op {
    if annotated then Add(Under(AnnotationsPath(), ESCAPED_MARKER_KEY), Str(marker))
    else Add(AnnotationsPath(), Obj(map[K_INJECTED := Str(marker)]))
  }

  function MarkerOps(pod: Pod, plan: MutationPlan): seq<Op> {
    [MarkerOp(pod.annotations.Some?, MarkerOf(OldMarker(pod.annotations), plan.injectedProviders))]
  }

  function SpecOps(pod: Pod, plan: MutationPlan): seq<Op> {
    ListOps(SpecPath("volumes"), pod.Volumes(), VolumeItems(plan.volumes))
    + ListOps(SpecPath("initContainers"), pod.InitContainers(), InitItems(plan.initContainers))
    + ContainersOps(pod.Containers(), |pod.Containers()|, plan)
  }

  function BuildOps(pod: Pod, plan: MutationPlan): seq<Op> {
    SpecOps(pod, plan) + MarkerOps(pod, plan)
  }

  /** The vector the operations are pushed onto. */
  class PatchList {
    var ops: seq<Op>

    constructor ()
      ensures ops == []
    {
      ops := [];
    }

    method AddArray(path: string, exists_: bool, items: seq<Json>)
      modifies this
      ensures ops == old(ops) + AddArrayOps(path, exists_, items)
    {
      if items == [] {
        return;
      }
      if exists_ {
        for i := 0 to |items|
          invariant ops == old(ops) + AppendOps(path, items[..i])
        {
          ops := ops + [Add(Under(path, "-"), items[i])];
        }
        assert items[..|items|] == items;
      } else {
        ops := ops + [Add(path, Arr(items))];
      }
    }

    /** `add_array` with the entries whose name is not on `list` yet. */
    method AddFreshArray(path: string, list: ItemList, items: seq<Item>)
      modifies this
      ensures ops == old(ops) + ListOps(path, list, items)
    {
      var names := Names(list);
      AddArray(path, list.Some?, Bodies(Fresh(names, items)));
    }

    method AddContainer(c: Container, i: nat, plan: MutationPlan)
      modifies this
      ensures ops == old(ops) + ContainerOps(c, i, plan)
    {
      var path := ContainerPath(i);
      AddFreshArray(Under(path, "volumeMounts"), c.volumeMounts, MountItems(plan.containerMounts));
      AddFreshArray(Under(path, "env"), c.env, EnvItems(plan.containerEnv));
      Associative(
        old(ops),
        ListOps(Under(path, "volumeMounts"), c.volumeMounts, MountItems(plan.containerMounts)),
        ListOps(Under(path, "env"), c.env, EnvItems(plan.containerEnv)));
    }

    method AddContainers(cs: seq<Container>, plan: MutationPlan)
      modifies this
      ensures ops == old(ops) + ContainersOps(cs, |cs|, plan)
    {
      for i := 0 to |cs|
        invariant ops == old(ops) + ContainersOps(cs, i, plan)
      {
        AddContainer(cs[i], i, plan);
        Associative(old(ops), ContainersOps(cs, i, plan), ContainerOps(cs[i], i, plan));
      }
    }

    method AddSpec(pod: Pod, plan: MutationPlan)
      modifies this
      ensures ops == old(ops) + SpecOps(pod, plan)
    {
      AddFreshArray(SpecPath("volumes"), pod.Volumes(), VolumeItems(plan.volumes));
      AddFreshArray(SpecPath("initContainers"), pod.InitContainers(), InitItems(plan.initContainers));
      AddContainers(pod.Containers(), plan);
      ghost var a := ListOps(SpecPath("volumes"), pod.Volumes(), VolumeItems(plan.volumes));
      ghost var b := ListOps(SpecPath("initContainers"), pod.InitContainers(), InitItems(plan.initContainers));
      Associative(old(ops), a, b);
      Associative(old(ops), a + b, ContainersOps(pod.Containers(), |pod.Containers()|, plan));
    }
  }

  method Build(pod: Pod, plan: MutationPlan) returns (patches: seq<Op>)
    ensures patches == BuildOps(pod, plan)
  {
    var list := new PatchList();
    list.AddSpec(pod, plan);
    NilLeft(SpecOps(pod, plan));
    var marker := MergedMarker(OldMarker(pod.annotations), plan.injectedProviders);
    patches := list.ops + [MarkerOp(pod.annotations.Some?, marker)];
  }

  // ---- the direct injection, on the document ----

  /** The decoded list under a member. */
  function Existing(m: map<string, Json>, key: string): ItemList {
    match DecodeList(Member(m, key)) case Ok(list) => list case Err(_) => None
  }

  /** Array member `key` followed by `added`, created when it is not an array yet. */
  function Grow(m: map<string, Json>, key: string, added: seq<Json>): map<string, Json> {
    if added == [] then m
    else m[key := Arr((if Member(m, key).Arr? then m[key].items else []) + added)]
  }

  function AddFresh(m: map<string, Json>, key: string, items: seq<Item>): map<string, Json> {
    Grow(m, key, FreshBodies(Existing(m, key), items))
  }

  function InjectContainerDoc(c: Json, plan: MutationPlan): Json {
    match c
    case Obj(m) =>
      Obj(AddFresh(AddFresh(m, "volumeMounts", MountItems(plan.containerMounts)), "env", EnvItems(plan.containerEnv)))
    case _ => c
  }

  /** The first `n` containers injected, the others as they were. */
  function InjectFirst(cs: seq<Json>, n: nat, plan: MutationPlan): (r: seq<Json>)
    ensures |r| == |cs|
  {
    seq(|cs|, i requires 0 <= i < |cs| => if i < n then InjectContainerDoc(cs[i], plan) else cs[i])
  }

  function InjectContainersDoc(m: map<string, Json>, plan: MutationPlan): map<string, Json> {
    if Member(m, "containers").Arr?
    then m["containers" := Arr(InjectFirst(m["containers"].items, |m["containers"].items|, plan))]
    else m
  }

  function InjectSpecDoc(m: map<string, Json>, plan: MutationPlan): map<string, Json> {
    InjectContainersDoc(
      AddFresh(AddFresh(m, "volumes", VolumeItems(plan.volumes)), "initContainers", InitItems(plan.initContainers)),
      plan)
  }

  function InjectMetaDoc(m: map<string, Json>, plan: MutationPlan): map<string, Json> {
    var annotations := match Member(m, "annotations") case Obj(a) => a case _ => map[];
    var existing := match Member(annotations, K_INJECTED) case Str(s) => Some(s) case _ => None;
    m["annotations" := Obj(annotations[K_INJECTED := Str(MarkerOf(existing, plan.injectedProviders))])]
  }

  predicate HasObject(doc: Json, key: string) {
    doc.Obj? && Member(doc.members, key).Obj?
  }

  /** Nothing outside the lists named here and the marker is touched. */
  function InjectDoc(doc: Json, plan: MutationPlan): Json {
    if !doc.Obj? then doc
    else
      var m := doc.members;
      var m1 := if HasObject(doc, "spec") then m["spec" := Obj(InjectSpecDoc(m["spec"].members, plan))] else m;
      if HasObject(doc, "metadata") then Obj(m1["metadata" := Obj(InjectMetaDoc(m["metadata"].members, plan))]) else Obj(m1)
  }

  // ---- the direct injection, on the typed pod ----

  function InjectContainer(c: Container, plan: MutationPlan): Container {
    Container(
      AppendFresh(c.volumeMounts, MountItems(plan.containerMounts)),
      AppendFresh(c.env, EnvItems(plan.containerEnv)))
  }

  function InjectContainers(cs: seq<Container>, plan: MutationPlan): (r: seq<Container>)
    ensures |r| == |cs|
  {
    seq(|cs|, i requires 0 <= i < |cs| => InjectContainer(cs[i], plan))
  }

  function InjectSpec(spec: PodSpec, plan: MutationPlan): PodSpec {
    spec.(
      volumes := AppendFresh(spec.volumes, VolumeItems(plan.volumes)),
      initContainers := AppendFresh(spec.initContainers, InitItems(plan.initContainers)),
      containers := InjectContainers(spec.containers, plan))
  }

  function InjectAnnotations(annotations: Scope, ids: seq<ProviderId>): Scope {
    Some(annotations.GetOr(map[])[K_INJECTED := MarkerOf(OldMarker(annotations), ids)])
  }

  function InjectPod(pod: Pod, plan: MutationPlan): Pod {
    pod.(
      annotations := InjectAnnotations(pod.annotations, plan.injectedProviders),
      spec := match pod.spec case None => None case Some(s) => Some(InjectSpec(s, plan)))
  }
}
