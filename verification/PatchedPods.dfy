/** What a patched document holds, member by member. */
module PatchedPods {
  import opened Prelude
  import opened Text
  import opened JsonPatch
  import opened Items
  import opened Annotations
  import opened Resolve
  import opened Plan
  import opened Marker
  import opened Pods
  import opened Patch
  import opened Refinement
  import opened Injection
  import opened Frames

  // ---- reading documents ----

  /** The array at a pointer; an absent one reads as empty. */
  function ListAt(doc: Json, tokens: seq<string>): seq<Json> {
    match NodeAt(doc, tokens)
    case Some(Arr(js)) => js
    case _ => []
  }

  function NameOf(j: Json): string {
    match NodeAt(j, ["name"])
    case Some(Str(s)) => s
    case _ => ""
  }

  ghost predicate Named(js: seq<Json>, name: string) {
    exists k :: 0 <= k < |js| && NameOf(js[k]) == name
  }

  /** Entry `k` and no other has this name. */
  ghost predicate OnlyOne(js: seq<Json>, name: string, k: int) {
    && 0 <= k < |js| && NameOf(js[k]) == name
    && forall l :: 0 <= l < |js| && NameOf(js[l]) == name ==> l == k
  }

  function KindOf(j: Json): string {
    match NodeAt(j, ["kind"])
    case Some(Str(s)) => s
    case _ => ""
  }

  function TextAt(doc: Json, tokens: seq<string>): Option<string> {
    match NodeAt(doc, tokens)
    case Some(Str(s)) => Some(s)
    case _ => None
  }

  // ---- what the webhook reads from a document ----

  lemma {:induction false} OwnersRead(js: seq<Json>, owners: seq<OwnerRef>)
    requires DecodeOwners(js) == Ok(owners)
    ensures |owners| == |js|
    ensures forall i :: 0 <= i < |js| ==> owners[i] == OwnerRef(KindOf(js[i]), NameOf(js[i]))
  {
    if js != [] {
      OwnersRead(js[1..], owners[1..]);
      MemberNode(js[0].members, "kind");
      MemberNode(js[0].members, "name");
      assert owners == [owners[0]] + owners[1..];
    }
  }

  lemma BelowMember(doc: Json, key: string, inner: string)
    requires HasObject(doc, key)
    ensures NodeAt(doc, [key, inner]) ==
            if inner in doc.members[key].members then Some(doc.members[key].members[inner]) else None
  {
    assert [key, inner][1..] == [inner];
    MemberNode(doc.members[key].members, inner);
  }

  lemma AnnotationNode(doc: Json, key: string)
    requires HasObject(doc, "metadata")
    requires var held := Member(doc.members["metadata"].members, "annotations"); held.Obj? || held.Null?
    ensures var annotations := AnnotationMembers(doc.members["metadata"].members);
            NodeAt(doc, ["metadata", "annotations", key]) == if key in annotations then Some(annotations[key]) else None
  {
    var meta := doc.members["metadata"].members;
    assert ["metadata", "annotations", key][1..] == ["annotations", key] && ["annotations", key][1..] == [key];
    MemberNode(AnnotationMembers(meta), key);
    assert NodeAt(doc, ["metadata", "annotations", key]) == NodeAt(Obj(meta), ["annotations", key]);
    if "annotations" in meta {
      assert NodeAt(Obj(meta), ["annotations", key]) == NodeAt(meta["annotations"], [key]);
      assert NodeAt(Null, [key]) == None;
    }
  }

  /** Everything the decisions are made on, by the place it has in the document. */
  lemma PodIsRead(doc: Json, pod: Pod)
    requires DecodePod(doc) == Ok(pod) && HasObject(doc, "metadata") && HasObject(doc, "spec")
    ensures forall key :: Lookup(pod.annotations, key) == TextAt(doc, ["metadata", "annotations", key])
    ensures pod.namespace == TextAt(doc, ["metadata", "namespace"])
    ensures pod.spec.Some? && pod.spec.value.serviceAccountName == TextAt(doc, ["spec", "serviceAccountName"])
    ensures var owners, js := pod.ownerReferences.GetOr([]), ListAt(doc, ["metadata", "ownerReferences"]);
            |owners| == |js| && forall i :: 0 <= i < |js| ==> owners[i] == OwnerRef(KindOf(js[i]), NameOf(js[i]))
    ensures |pod.Containers()| == |ListAt(doc, ["spec", "containers"])|
  {
    PodMembers(doc, pod);
    var meta := doc.members["metadata"].members;
    SpecMembers(doc.members["spec"].members, pod.spec.value);
    BelowMember(doc, "metadata", "namespace");
    BelowMember(doc, "metadata", "ownerReferences");
    BelowMember(doc, "spec", "serviceAccountName");
    BelowMember(doc, "spec", "containers");
    if pod.ownerReferences.Some? {
      OwnersRead(meta["ownerReferences"].items, pod.ownerReferences.value);
    }
    forall key
      ensures Lookup(pod.annotations, key) == TextAt(doc, ["metadata", "annotations", key])
    {
      AnnotationNode(doc, key);
    }
  }

  // ---- entries as they must be written ----

  ghost predicate WritesVariable(j: Json, e: EnvVar) {
    && j.Obj? && j.members.Keys == {"name", "value"}
    && NodeAt(j, ["name"]) == Some(Str(e.name))
    && NodeAt(j, ["value"]) == Some(Str(e.value))
  }

  ghost predicate WritesMount(j: Json, m: VolumeMount) {
    && j.Obj? && j.members.Keys == {"name", "mountPath", "readOnly"}
    && NodeAt(j, ["name"]) == Some(Str(m.name))
    && NodeAt(j, ["mountPath"]) == Some(Str(m.mountPath))
    && NodeAt(j, ["readOnly"]) == Some(Bool(m.readOnly))
  }

  ghost predicate WritesVolume(j: Json, v: VolumeSpec) {
    NodeAt(j, ["name"]) == Some(Str(v.name)) && j == v.value
  }

  ghost predicate WritesStrings(js: seq<Json>, texts: seq<string>) {
    |js| == |texts| && forall k :: 0 <= k < |js| ==> js[k] == Str(texts[k])
  }

  ghost predicate WritesInit(j: Json, c: InitContainer) {
    && NodeAt(j, ["name"]) == Some(Str(c.name))
    && NodeAt(j, ["image"]) == Some(Str(c.image))
    && NodeAt(j, ["imagePullPolicy"]) == Some(Str("IfNotPresent"))
    && WritesStrings(ListAt(j, ["command"]), c.command)
    && WritesStrings(ListAt(j, ["args"]), c.args)
    && |ListAt(j, ["env"])| == |c.env|
    && (forall k :: 0 <= k < |c.env| ==> WritesVariable(ListAt(j, ["env"])[k], c.env[k]))
    && |ListAt(j, ["volumeMounts"])| == |c.mounts|
    && (forall k :: 0 <= k < |c.mounts| ==> WritesMount(ListAt(j, ["volumeMounts"])[k], c.mounts[k]))
    && NodeAt(j, ["securityContext"]) == Some(c.securityContext)
    && NodeAt(j, ["resources"]) == Some(c.resources)
  }

  lemma MemberAt(m: map<string, Json>, key: string)
    ensures NodeAt(Obj(m), [key]) == if key in m then Some(m[key]) else None
    ensures ListAt(Obj(m), [key]) == Elements(m, key)
  {
    MemberNode(m, key);
  }

  lemma VariableWritten(e: EnvVar)
    ensures WritesVariable(e.ToItem().body, e)
  {
    MemberAt(e.ToItem().body.members, "name");
    MemberAt(e.ToItem().body.members, "value");
  }

  lemma MountWritten(m: VolumeMount)
    ensures WritesMount(m.ToItem().body, m)
  {
    MemberAt(m.ToItem().body.members, "name");
    MemberAt(m.ToItem().body.members, "mountPath");
    MemberAt(m.ToItem().body.members, "readOnly");
  }

  lemma InitMembers(c: InitContainer)
    ensures var m := c.ToItem().body;
            && m.Obj?
            && Member(m.members, "name") == Str(c.name)
            && Member(m.members, "image") == Str(c.image)
            && Member(m.members, "imagePullPolicy") == Str("IfNotPresent")
            && Elements(m.members, "command") == Strings(c.command).items
            && Elements(m.members, "args") == Strings(c.args).items
            && Elements(m.members, "env") == Bodies(EnvItems(c.env))
            && Elements(m.members, "volumeMounts") == Bodies(MountItems(c.mounts))
            && "securityContext" in m.members && m.members["securityContext"] == c.securityContext
            && "resources" in m.members && m.members["resources"] == c.resources
  {
  }

  lemma InitWritten(c: InitContainer)
    ensures WritesInit(c.ToItem().body, c)
  {
    var m := c.ToItem().body.members;
    InitMembers(c);
    MemberAt(m, "name");
    MemberAt(m, "image");
    MemberAt(m, "imagePullPolicy");
    MemberAt(m, "command");
    MemberAt(m, "args");
    MemberAt(m, "env");
    MemberAt(m, "volumeMounts");
    MemberAt(m, "securityContext");
    MemberAt(m, "resources");
    forall k | 0 <= k < |c.env|
      ensures WritesVariable(Elements(m, "env")[k], c.env[k])
    {
      VariableWritten(c.env[k]);
    }
    forall k | 0 <= k < |c.mounts|
      ensures WritesMount(Elements(m, "volumeMounts")[k], c.mounts[k])
    {
      MountWritten(c.mounts[k]);
    }
  }

  // ---- the entries that are missing ----

  /** The requests whose name no entry has yet, in order. */
  ghost function Missing<T(!new)>(before: seq<Json>, xs: seq<T>, name: T -> string): seq<T> {
    if xs == [] then []
    else (if Named(before, name(xs[0])) then [] else [xs[0]]) + Missing(before, xs[1..], name)
  }

  lemma {:induction false} MissingMembers<T(!new)>(before: seq<Json>, xs: seq<T>, name: T -> string)
    ensures forall x :: x in Missing(before, xs, name) <==> x in xs && !Named(before, name(x))
  {
    if xs != [] {
      var head, rest := xs[0], xs[1..];
      MissingMembers(before, rest, name);
      assert xs == [head] + rest;
      assert Missing(before, xs, name) == (if Named(before, name(head)) then [] else [head]) + Missing(before, rest, name);
      forall x
        ensures x in xs <==> x == head || x in rest
      {
      }
    }
  }

  ghost predicate DistinctBy<T(!new)>(xs: seq<T>, name: T -> string) {
    forall i, j :: 0 <= i < |xs| && 0 <= j < |xs| && name(xs[i]) == name(xs[j]) ==> i == j
  }

  lemma {:induction false} MissingDistinct<T(!new)>(before: seq<Json>, xs: seq<T>, name: T -> string)
    requires DistinctBy(xs, name)
    ensures DistinctBy(Missing(before, xs, name), name)
  {
    if xs != [] {
      var rest := Missing(before, xs[1..], name);
      assert DistinctBy(xs[1..], name) by {
        assert forall i :: 0 <= i < |xs[1..]| ==> xs[1..][i] == xs[i + 1];
      }
      MissingDistinct(before, xs[1..], name);
      MissingMembers(before, xs[1..], name);
      forall j | 0 <= j < |rest|
        ensures name(xs[0]) != name(rest[j])
      {
        assert rest[j] in rest && rest[j] in xs[1..];
        var k :| 0 <= k < |xs[1..]| && xs[1..][k] == rest[j];
        assert xs[k + 1] == rest[j];
      }
      var missing := Missing(before, xs, name);
      if !Named(before, name(xs[0])) {
        assert missing == [xs[0]] + rest;
        forall i, j | 0 <= i < |missing| && 0 <= j < |missing| && name(missing[i]) == name(missing[j])
          ensures i == j
        {
          assert i > 0 ==> missing[i] == rest[i - 1];
          assert j > 0 ==> missing[j] == rest[j - 1];
        }
      } else {
        assert missing == rest;
      }
    }
  }

  function Rendered<T>(xs: seq<T>, render: T -> Item): (r: seq<Item>)
    ensures |r| == |xs|
  {
    seq(|xs|, i requires 0 <= i < |xs| => render(xs[i]))
  }

  lemma {:induction false} FreshIsMissing<T(!new)>(
    before: seq<Json>, taken: set<string>, xs: seq<T>, name: T -> string, render: T -> Item)
    requires forall n :: n in taken <==> Named(before, n)
    requires forall x :: render(x).name == name(x)
    ensures Fresh(taken, Rendered(xs, render)) == Rendered(Missing(before, xs, name), render)
  {
    if xs != [] {
      var head, rest := xs[0], xs[1..];
      FreshIsMissing(before, taken, rest, name, render);
      assert Rendered(xs, render)[1..] == Rendered(rest, render);
      assert Rendered([head] + Missing(before, rest, name), render) == [render(head)] + Rendered(Missing(before, rest, name), render);
    }
  }

  lemma {:induction false} DecodedNames(js: seq<Json>, items: seq<Item>)
    requires DecodeItems(js) == Ok(items)
    ensures forall n :: n in NamesOf(items) <==> Named(js, n)
  {
    if js != [] {
      var j, item := js[0], items[0];
      DecodedNames(js[1..], items[1..]);
      assert items == [item] + items[1..] && js == [j] + js[1..];
      MemberAt(j.members, "name");
      assert NameOf(j) == item.name;
      assert NamesOf(items) == {item.name} + NamesOf(items[1..]);
      assert forall k :: 0 < k < |js| ==> js[k] == js[1..][k - 1];
      assert forall k :: 0 <= k < |js[1..]| ==> js[1..][k] == js[k + 1];
    }
  }

  /** `after` is `before` followed by the missing requests, in order, each as `writes` wants it. */
  ghost predicate Extended<T(!new)>(before: seq<Json>, after: seq<Json>, xs: seq<T>, name: T -> string, writes: (Json, T) -> bool) {
    var missing := Missing(before, xs, name);
    && before <= after
    && |after| == |before| + |missing|
    && forall k :: 0 <= k < |missing| ==> writes(after[|before| + k], missing[k])
  }

  lemma AddFreshExtended<T(!new)>(
    m: map<string, Json>, key: string, xs: seq<T>, name: T -> string, render: T -> Item, writes: (Json, T) -> bool)
    requires DecodeList(Member(m, key)).Ok?
    requires forall x :: render(x).name == name(x)
    requires forall x :: x in xs ==> writes(render(x).body, x)
    ensures Extended(Elements(m, key), Elements(AddFresh(m, key, Rendered(xs, render)), key), xs, name, writes)
  {
    var before, list := Elements(m, key), DecodeList(Member(m, key)).value;
    var missing := Missing(before, xs, name);
    DecodedNames(before, list.GetOr([]));
    FreshIsMissing(before, Names(list), xs, name, render);
    MissingMembers(before, xs, name);
    assert FreshBodies(list, Rendered(xs, render)) == Bodies(Rendered(missing, render));
    assert Elements(AddFresh(m, key, Rendered(xs, render)), key) == before + Bodies(Rendered(missing, render));
    forall k | 0 <= k < |missing|
      ensures writes(Bodies(Rendered(missing, render))[k], missing[k])
    {
      assert missing[k] in missing;
    }
  }

  /** A request whose name is new ends up as the one entry of that name. */
  lemma OneAdded<T(!new)>(
    before: seq<Json>, after: seq<Json>, xs: seq<T>, name: T -> string, writes: (Json, T) -> bool, x: T) returns (k: int)
    requires Extended(before, after, xs, name, writes)
    requires forall j, y :: writes(j, y) ==> NameOf(j) == name(y)
    requires DistinctBy(xs, name)
    requires x in xs && !Named(before, name(x))
    ensures OnlyOne(after, name(x), k) && writes(after[k], x)
  {
    var missing := Missing(before, xs, name);
    MissingMembers(before, xs, name);
    MissingDistinct(before, xs, name);
    var i :| 0 <= i < |missing| && missing[i] == x;
    k := |before| + i;
    forall l | 0 <= l < |after| && NameOf(after[l]) == name(x)
      ensures l == k
    {
      if l >= |before| {
        var j := l - |before|;
        assert writes(after[|before| + j], missing[j]);
        assert name(missing[j]) == name(missing[i]);
      }
    }
  }

  // ---- the four kinds ----

  function VariableName(e: EnvVar): string { e.name }
  function MountName(m: VolumeMount): string { m.name }
  function VolumeName(v: VolumeSpec): string { v.name }
  function InitName(c: InitContainer): string { c.name }

  lemma VariablesExtended(m: map<string, Json>, es: seq<EnvVar>)
    requires DecodeList(Member(m, "env")).Ok?
    ensures Extended(Elements(m, "env"), Elements(AddFresh(m, "env", EnvItems(es)), "env"), es, VariableName, WritesVariable)
  {
    var render := (e: EnvVar) => e.ToItem();
    assert Rendered(es, render) == EnvItems(es);
    forall e: EnvVar
      ensures WritesVariable(render(e).body, e)
    {
      VariableWritten(e);
    }
    AddFreshExtended(m, "env", es, VariableName, render, WritesVariable);
  }

  lemma MountsExtended(m: map<string, Json>, ms: seq<VolumeMount>)
    requires DecodeList(Member(m, "volumeMounts")).Ok?
    ensures Extended(
              Elements(m, "volumeMounts"), Elements(AddFresh(m, "volumeMounts", MountItems(ms)), "volumeMounts"),
              ms, MountName, WritesMount)
  {
    var render := (v: VolumeMount) => v.ToItem();
    assert Rendered(ms, render) == MountItems(ms);
    forall v: VolumeMount
      ensures WritesMount(render(v).body, v)
    {
      MountWritten(v);
    }
    AddFreshExtended(m, "volumeMounts", ms, MountName, render, WritesMount);
  }

  lemma InitsExtended(m: map<string, Json>, cs: seq<InitContainer>)
    requires DecodeList(Member(m, "initContainers")).Ok?
    ensures Extended(
              Elements(m, "initContainers"), Elements(AddFresh(m, "initContainers", InitItems(cs)), "initContainers"),
              cs, InitName, WritesInit)
  {
    var render := (c: InitContainer) => c.ToItem();
    assert Rendered(cs, render) == InitItems(cs);
    forall c: InitContainer
      ensures WritesInit(render(c).body, c)
    {
      InitWritten(c);
    }
    AddFreshExtended(m, "initContainers", cs, InitName, render, WritesInit);
  }

  /** Volumes whose object carries the name they are guarded by. */
  ghost predicate VolumesNamed(vs: seq<VolumeSpec>) {
    forall v :: v in vs ==> v.value.Obj? && NodeAt(v.value, ["name"]) == Some(Str(v.name))
  }

  lemma VolumesExtended(m: map<string, Json>, vs: seq<VolumeSpec>)
    requires DecodeList(Member(m, "volumes")).Ok? && VolumesNamed(vs)
    ensures Extended(
              Elements(m, "volumes"), Elements(AddFresh(m, "volumes", VolumeItems(vs)), "volumes"), vs, VolumeName, WritesVolume)
  {
    var render := (v: VolumeSpec) => v.ToItem();
    assert Rendered(vs, render) == VolumeItems(vs);
    AddFreshExtended(m, "volumes", vs, VolumeName, render, WritesVolume);
  }

  // ---- the document ----

  /** The place of a list of main container `i`. */
  function ContainerList(i: nat, key: string): seq<string> {
    ["spec", "containers", Decimal(i), key]
  }

  lemma SpecListAt(doc: Json, key: string)
    requires HasObject(doc, "spec")
    ensures ListAt(doc, ["spec", key]) == Elements(doc.members["spec"].members, key)
  {
    assert ["spec", key][1..] == [key];
    MemberAt(doc.members["spec"].members, key);
  }

  lemma ContainerListAt(doc: Json, i: nat, key: string)
    requires HasObject(doc, "spec") && Member(doc.members["spec"].members, "containers").Arr?
    requires var js := doc.members["spec"].members["containers"].items; i < |js| && js[i].Obj?
    ensures ListAt(doc, ContainerList(i, key)) ==
            Elements(doc.members["spec"].members["containers"].items[i].members, key)
  {
    var spec := doc.members["spec"].members;
    var js := spec["containers"].items;
    assert spec["containers" := Arr(js)] == spec && doc.members["spec" := Obj(spec)] == doc.members;
    ContainerNode(doc.members, spec, js, i, js[i]);
    NodeBelow(doc, ContainerAt(i), [key]);
    assert ContainerAt(i) + [key] == ContainerList(i, key);
    MemberAt(js[i].members, key);
  }

  /** The spec of the injected document: where its lists and its containers come from. */
  lemma InjectedSpec(m: map<string, Json>, plan: MutationPlan)
    ensures var n := InjectSpecDoc(m, plan);
            && Elements(n, "volumes") == Elements(AddFresh(m, "volumes", VolumeItems(plan.volumes)), "volumes")
            && Elements(n, "initContainers") == Elements(AddFresh(m, "initContainers", InitItems(plan.initContainers)), "initContainers")
            && Elements(n, "containers") == InjectFirst(Elements(m, "containers"), |Elements(m, "containers")|, plan)
            && (Member(m, "containers").Arr? ==> Member(n, "containers").Arr?)
  {
    var volumes, inits := VolumeItems(plan.volumes), InitItems(plan.initContainers);
    var m1 := AddFresh(m, "volumes", volumes);
    SpecKeys(m, volumes, inits, plan);
    assert Member(m1, "initContainers") == Member(m, "initContainers");
    SameAddition(m1, m, "initContainers", inits);
  }

  lemma SameAddition(m: map<string, Json>, n: map<string, Json>, key: string, items: seq<Item>)
    requires Member(m, key) == Member(n, key)
    ensures Elements(AddFresh(m, key, items), key) == Elements(AddFresh(n, key, items), key)
  {
  }

  lemma InjectedContainer(m: map<string, Json>, plan: MutationPlan)
    ensures var n := InjectContainerDoc(Obj(m), plan).members;
            && Elements(n, "volumeMounts") == Elements(AddFresh(m, "volumeMounts", MountItems(plan.containerMounts)), "volumeMounts")
            && Elements(n, "env") == Elements(AddFresh(m, "env", EnvItems(plan.containerEnv)), "env")
  {
    var m1 := AddFresh(m, "volumeMounts", MountItems(plan.containerMounts));
    AddFreshKeeps(m, "volumeMounts", MountItems(plan.containerMounts), "env");
    AddFreshKeeps(m1, "env", EnvItems(plan.containerEnv), "volumeMounts");
    SameAddition(m1, m, "env", EnvItems(plan.containerEnv));
  }

  /** Volumes and init containers of the patched document. */
  ghost predicate SpecWritten(doc: Json, patched: Json, plan: MutationPlan) {
    && Extended(ListAt(doc, ["spec", "volumes"]), ListAt(patched, ["spec", "volumes"]), plan.volumes, VolumeName, WritesVolume)
    && Extended(
         ListAt(doc, ["spec", "initContainers"]), ListAt(patched, ["spec", "initContainers"]),
         plan.initContainers, InitName, WritesInit)
  }

  /** Mounts and variables of main container `i` of the patched document. */
  ghost predicate ContainerWritten(doc: Json, patched: Json, plan: MutationPlan, i: nat) {
    && Extended(
         ListAt(doc, ContainerList(i, "volumeMounts")), ListAt(patched, ContainerList(i, "volumeMounts")),
         plan.containerMounts, MountName, WritesMount)
    && Extended(
         ListAt(doc, ContainerList(i, "env")), ListAt(patched, ContainerList(i, "env")),
         plan.containerEnv, VariableName, WritesVariable)
  }

  const MARKER_PATH := ["metadata", "annotations", "cwii.dev/injected"]

  function MarkerAt(doc: Json): Option<string> {
    TextAt(doc, MARKER_PATH)
  }

  lemma SpecIsWritten(doc: Json, pod: Pod, plan: MutationPlan)
    requires DecodePod(doc) == Ok(pod) && HasObject(doc, "spec") && VolumesNamed(plan.volumes)
    ensures SpecWritten(doc, InjectDoc(doc, plan), plan)
  {
    var m := doc.members["spec"].members;
    PodMembers(doc, pod);
    InjectedSpec(m, plan);
    SpecListAt(doc, "volumes");
    SpecListAt(doc, "initContainers");
    SpecListAt(InjectDoc(doc, plan), "volumes");
    SpecListAt(InjectDoc(doc, plan), "initContainers");
    VolumesExtended(m, plan.volumes);
    InitsExtended(m, plan.initContainers);
  }

  lemma ContainerIsWritten(doc: Json, pod: Pod, plan: MutationPlan, i: nat)
    requires DecodePod(doc) == Ok(pod) && HasObject(doc, "spec") && i < |pod.Containers()|
    ensures ContainerWritten(doc, InjectDoc(doc, plan), plan, i)
  {
    var m := doc.members["spec"].members;
    PodMembers(doc, pod);
    InjectedSpec(m, plan);
    var js := m["containers"].items;
    DecodedContainer(js, pod.Containers(), i);
    ContainerMembers(js[i], pod.Containers()[i]);
    InjectedContainer(js[i].members, plan);
    ContainerListAt(doc, i, "volumeMounts");
    ContainerListAt(doc, i, "env");
    ContainerListAt(InjectDoc(doc, plan), i, "volumeMounts");
    ContainerListAt(InjectDoc(doc, plan), i, "env");
    MountsExtended(js[i].members, plan.containerMounts);
    VariablesExtended(js[i].members, plan.containerEnv);
  }

  lemma MarkerRead(doc: Json, pod: Pod)
    requires DecodePod(doc) == Ok(pod) && HasObject(doc, "metadata")
    ensures MarkerAt(doc) == OldMarker(pod.annotations)
  {
    PodMembers(doc, pod);
    AnnotationNode(doc, K_INJECTED);
  }

  lemma MarkerIsWritten(doc: Json, pod: Pod, plan: MutationPlan)
    requires DecodePod(doc) == Ok(pod) && HasObject(doc, "metadata")
    ensures MarkerAt(InjectDoc(doc, plan)).Some?
    ensures NamesIn(MarkerAt(InjectDoc(doc, plan))) == NamesIn(MarkerAt(doc)) + Abbrs(plan.injectedProviders)
  {
    PodMembers(doc, pod);
    MarkerRead(doc, pod);
    AnnotationNode(InjectDoc(doc, plan), K_INJECTED);
    InjectedMeta(doc.members["metadata"].members, pod.annotations, plan);
    MarkerRoundTrip(OldMarker(pod.annotations), plan.injectedProviders);
  }

  /**
   * What applying the patch leaves in the document. Each of the four kinds of list is what it was, followed by
   * the planned entries whose name was not there, in the planned order, with every member as planned; and the
   * marker annotation holds the old names and the injected providers.
   */
  lemma PatchedDocument(doc: Json, pod: Pod, plan: MutationPlan)
    requires DecodePod(doc) == Ok(pod) && HasObject(doc, "metadata") && HasObject(doc, "spec") && VolumesNamed(plan.volumes)
    ensures Apply(doc, BuildOps(pod, plan)).Some?
    ensures var patched := Apply(doc, BuildOps(pod, plan)).value;
            && SpecWritten(doc, patched, plan)
            && (forall i: nat :: i < |pod.Containers()| ==> ContainerWritten(doc, patched, plan, i))
            && MarkerAt(patched).Some?
            && NamesIn(MarkerAt(patched)) == NamesIn(MarkerAt(doc)) + Abbrs(plan.injectedProviders)
  {
    PatchAppliesExactly(doc, pod, plan);
    SpecIsWritten(doc, pod, plan);
    MarkerIsWritten(doc, pod, plan);
    forall i: nat | i < |pod.Containers()|
      ensures ContainerWritten(doc, InjectDoc(doc, plan), plan, i)
    {
      ContainerIsWritten(doc, pod, plan, i);
    }
  }
}
