/** Applying the operations is the direct injection: on the document, and on what the document decodes to. */
module Refinement {
  import opened Prelude
  import opened Text
  import opened JsonPatch
  import opened Items
  import opened Annotations
  import opened Resolve
  import opened Plan
  import opened Marker
  import opened Pods
  import opened Patch

  // ---- one list ----

  lemma AppendOneApplies(doc: Json, at: seq<string>, m: map<string, Json>, key: string, v: Json)
    requires NodeAt(doc, at) == Some(Obj(m)) && Member(m, key).Arr?
    ensures Apply(doc, [Add(Under(Pointer(at + [key]), "-"), v)]) ==
            Some(Replace(doc, at, Obj(m[key := Arr(m[key].items + [v])])))
  {
    PointerSnoc(at + [key], "-");
    assert at + [key] + ["-"] == at + [key, "-"];
    ApplyOne(doc, at + [key, "-"], v);
    AddBelow(doc, at, [key, "-"], v);
    assert [key, "-"][1..] == ["-"];
    assert AddAt(m[key], ["-"], v) == Some(Arr(m[key].items + [v]));
  }

  lemma GrowTwice(m: map<string, Json>, key: string, v: Json, rest: seq<Json>)
    requires Member(m, key).Arr?
    ensures Grow(m[key := Arr(m[key].items + [v])], key, rest) == Grow(m, key, [v] + rest)
  {
    assert m[key].items + [v] + rest == m[key].items + ([v] + rest);
    assert rest == [] ==> [v] + rest == [v];
  }

  lemma {:induction false} AppendApplies(doc: Json, at: seq<string>, m: map<string, Json>, key: string, items: seq<Json>)
    requires NodeAt(doc, at) == Some(Obj(m)) && Member(m, key).Arr?
    ensures Apply(doc, AppendOps(Pointer(at + [key]), items)) == Some(Replace(doc, at, Obj(Grow(m, key, items))))
    decreases |items|
  {
    if items == [] {
      ReplaceSame(doc, at);
    } else {
      var path, v, rest := Pointer(at + [key]), items[0], items[1..];
      var m1 := m[key := Arr(m[key].items + [v])];
      assert AppendOps(path, items) == [Add(Under(path, "-"), v)] + AppendOps(path, rest);
      AppendOneApplies(doc, at, m, key, v);
      ApplyAppend(doc, [Add(Under(path, "-"), v)], AppendOps(path, rest));
      AppendApplies(Replace(doc, at, Obj(m1)), at, m1, key, rest);
      ReplaceTwice(doc, at, Obj(m1), Obj(Grow(m1, key, rest)));
      GrowTwice(m, key, v, rest);
      assert items == [v] + rest;
    }
  }

  /** The operations `add_array` emits grow one array member of the object they point into. */
  lemma ArrayApplies(doc: Json, at: seq<string>, m: map<string, Json>, key: string, items: seq<Json>)
    requires NodeAt(doc, at) == Some(Obj(m))
    ensures Apply(doc, AddArrayOps(Pointer(at + [key]), Member(m, key).Arr?, items)) ==
            Some(Replace(doc, at, Obj(Grow(m, key, items))))
  {
    if items == [] {
      ReplaceSame(doc, at);
    } else if Member(m, key).Arr? {
      AppendApplies(doc, at, m, key, items);
    } else {
      ApplyOne(doc, at + [key], Arr(items));
      AddBelow(doc, at, [key], Arr(items));
      assert [] + items == items;
    }
  }

  lemma ListApplies(doc: Json, at: seq<string>, m: map<string, Json>, key: string, list: ItemList, items: seq<Item>)
    requires NodeAt(doc, at) == Some(Obj(m)) && DecodeList(Member(m, key)) == Ok(list)
    ensures Apply(doc, ListOps(Pointer(at + [key]), list, items)) == Some(Replace(doc, at, Obj(AddFresh(m, key, items))))
  {
    ArrayApplies(doc, at, m, key, FreshBodies(list, items));
  }

  /** Two lists of the same object, one after the other. */
  lemma TwoListsApply(
    doc: Json, at: seq<string>, m: map<string, Json>,
    k1: string, list1: ItemList, items1: seq<Item>, k2: string, list2: ItemList, items2: seq<Item>)
    requires NodeAt(doc, at) == Some(Obj(m)) && k1 != k2
    requires DecodeList(Member(m, k1)) == Ok(list1) && DecodeList(Member(m, k2)) == Ok(list2)
    ensures Apply(doc, ListOps(Pointer(at + [k1]), list1, items1) + ListOps(Pointer(at + [k2]), list2, items2)) ==
            Some(Replace(doc, at, Obj(AddFresh(AddFresh(m, k1, items1), k2, items2))))
  {
    var ops1, ops2 := ListOps(Pointer(at + [k1]), list1, items1), ListOps(Pointer(at + [k2]), list2, items2);
    var m1 := AddFresh(m, k1, items1);
    var doc1 := Replace(doc, at, Obj(m1));
    ApplyAppend(doc, ops1, ops2);
    ListApplies(doc, at, m, k1, list1, items1);
    assert Member(m1, k2) == Member(m, k2);
    ListApplies(doc1, at, m1, k2, list2, items2);
    ReplaceTwice(doc, at, Obj(m1), Obj(AddFresh(m1, k2, items2)));
  }

  // ---- the containers ----

  lemma {:induction false} DecodedContainer(js: seq<Json>, cs: seq<Container>, i: nat)
    requires DecodeContainers(js) == Ok(cs) && i < |js|
    ensures DecodeContainer(js[i]) == Ok(cs[i])
  {
    if i > 0 {
      DecodedContainer(js[1..], cs[1..], i - 1);
    }
  }

  lemma PlainKeys()
    ensures Plain("spec") && Plain("volumes") && Plain("initContainers") && Plain("containers")
    ensures Plain("volumeMounts") && Plain("env") && Plain("metadata") && Plain("annotations")
  {
  }

  function ContainerAt(i: nat): seq<string> {
    ["spec", "containers", Decimal(i)]
  }

  lemma DecimalIsPlain(i: nat)
    ensures Plain(Decimal(i)) && ParseIndex(Decimal(i)) == Some(i)
  {
    var d := Decimal(i);
    assert forall k :: 0 <= k < |d| ==> IsDigit(d[k]);
  }

  lemma PointerTwo(k1: string, k2: string)
    requires Plain(k1) && Plain(k2)
    ensures Under(Under("", k1), k2) == Pointer([k1, k2])
  {
    PointerSnoc([], k1);
    PointerSnoc([k1], k2);
    assert [] + [k1] == [k1] && [k1] + [k2] == [k1, k2];
  }

  lemma SpecPointer(key: string)
    requires Plain(key)
    ensures SpecPath(key) == Pointer(["spec", key])
  {
    PlainKeys();
    PointerTwo("spec", key);
  }

  lemma ContainerPointer(i: nat)
    ensures ContainerPath(i) == Pointer(ContainerAt(i))
  {
    PlainKeys();
    DecimalIsPlain(i);
    SpecPointer("containers");
    PointerSnoc(["spec", "containers"], Decimal(i));
    assert ["spec", "containers"] + [Decimal(i)] == ContainerAt(i);
  }

  /** The document `d` with its spec replaced by `spec` whose containers are `cs`. */
  function WithContainers(d: map<string, Json>, spec: map<string, Json>, cs: seq<Json>): Json {
    Obj(d["spec" := Obj(spec["containers" := Arr(cs)])])
  }

  lemma ContainerNode(d: map<string, Json>, spec: map<string, Json>, cs: seq<Json>, i: nat, node: Json)
    requires i < |cs|
    ensures NodeAt(WithContainers(d, spec, cs), ContainerAt(i)) == Some(cs[i])
    ensures Replace(WithContainers(d, spec, cs), ContainerAt(i), node) == WithContainers(d, spec, cs[i := node])
  {
    DecimalIsPlain(i);
    var doc := WithContainers(d, spec, cs);
    var s := doc.members["spec"];
    var a := s.members["containers"];
    var t1, t2 := ["containers", Decimal(i)], [Decimal(i)];
    assert ContainerAt(i)[1..] == t1 && t1[1..] == t2 && t2[1..] == [];
    assert NodeAt(a, t2) == Some(cs[i]);
    assert NodeAt(s, t1) == Some(cs[i]);
    assert Replace(a, t2, node) == Arr(cs[i := node]);
    assert Replace(s, t1, node) == Obj(s.members["containers" := Arr(cs[i := node])]);
    assert s.members["containers" := Arr(cs[i := node])] == spec["containers" := Arr(cs[i := node])];
    assert doc.members["spec" := Obj(spec["containers" := Arr(cs[i := node])])]
        == d["spec" := Obj(spec["containers" := Arr(cs[i := node])])];
  }

  lemma ContainerMembers(j: Json, c: Container)
    requires DecodeContainer(j) == Ok(c)
    ensures j.Obj?
    ensures DecodeList(Member(j.members, "volumeMounts")) == Ok(c.volumeMounts)
    ensures DecodeList(Member(j.members, "env")) == Ok(c.env)
  {
  }

  lemma ContainerPaths(i: nat)
    ensures Under(ContainerPath(i), "volumeMounts") == Pointer(ContainerAt(i) + ["volumeMounts"])
    ensures Under(ContainerPath(i), "env") == Pointer(ContainerAt(i) + ["env"])
    ensures "volumeMounts" != "env"
  {
    PlainKeys();
    ContainerPointer(i);
    PointerSnoc(ContainerAt(i), "volumeMounts");
    PointerSnoc(ContainerAt(i), "env");
  }

  lemma ContainerApplies(
    d: map<string, Json>, spec: map<string, Json>, js: seq<Json>, c: Container, i: nat, plan: MutationPlan)
    requires i < |js| && DecodeContainer(js[i]) == Ok(c)
    ensures Apply(WithContainers(d, spec, js), ContainerOps(c, i, plan)) ==
            Some(WithContainers(d, spec, js[i := InjectContainerDoc(js[i], plan)]))
  {
    ContainerPaths(i);
    ContainerMembers(js[i], c);
    ContainerNode(d, spec, js, i, InjectContainerDoc(js[i], plan));
    TwoListsApply(
      WithContainers(d, spec, js), ContainerAt(i), js[i].members,
      "volumeMounts", c.volumeMounts, MountItems(plan.containerMounts),
      "env", c.env, EnvItems(plan.containerEnv));
  }

  lemma InjectNext(js: seq<Json>, i: nat, plan: MutationPlan)
    requires i < |js|
    ensures InjectFirst(js, i, plan)[i] == js[i]
    ensures InjectFirst(js, i, plan)[i := InjectContainerDoc(js[i], plan)] == InjectFirst(js, i + 1, plan)
  {
  }

  lemma {:induction false} ContainersApply(
    d: map<string, Json>, spec: map<string, Json>, js: seq<Json>, cs: seq<Container>, n: nat, plan: MutationPlan)
    requires DecodeContainers(js) == Ok(cs) && n <= |js|
    ensures Apply(WithContainers(d, spec, js), ContainersOps(cs, n, plan)) ==
            Some(WithContainers(d, spec, InjectFirst(js, n, plan)))
  {
    if n == 0 {
      assert InjectFirst(js, 0, plan) == js;
    } else {
      var i := n - 1;
      var js1 := InjectFirst(js, i, plan);
      ContainersApply(d, spec, js, cs, i, plan);
      ApplyAppend(WithContainers(d, spec, js), ContainersOps(cs, i, plan), ContainerOps(cs[i], i, plan));
      DecodedContainer(js, cs, i);
      ContainerApplies(d, spec, js1, cs[i], i, plan);
      InjectNext(js, i, plan);
    }
  }

  // ---- spec, marker, whole document ----

  lemma PodMembers(doc: Json, pod: Pod)
    requires DecodePod(doc) == Ok(pod)
    ensures doc.Obj?
    ensures HasObject(doc, "spec") ==>
              var m := doc.members["spec"].members;
              && pod.spec.Some?
              && DecodeString(Member(m, "serviceAccountName")) == Ok(pod.spec.value.serviceAccountName)
              && DecodeList(Member(m, "volumes")) == Ok(pod.spec.value.volumes)
              && DecodeList(Member(m, "initContainers")) == Ok(pod.spec.value.initContainers)
              && DecodeContainerList(Member(m, "containers")) == Ok(pod.spec.value.containers)
    ensures !HasObject(doc, "spec") ==> Member(doc.members, "spec") == Null && pod.spec.None?
    ensures HasObject(doc, "metadata") ==>
              var m := doc.members["metadata"].members;
              && DecodeAnnotations(Member(m, "annotations")) == Ok(pod.annotations)
              && DecodeString(Member(m, "namespace")) == Ok(pod.namespace)
              && DecodeOwnerList(Member(m, "ownerReferences")) == Ok(pod.ownerReferences)
    ensures !HasObject(doc, "metadata") ==> Member(doc.members, "metadata") == Null && pod.annotations.None?
  {
  }

  lemma SpecNode(doc: Json, m: map<string, Json>)
    requires HasObject(doc, "spec")
    ensures NodeAt(doc, ["spec"]) == Some(doc.members["spec"])
    ensures Replace(doc, ["spec"], Obj(m)) == Obj(doc.members["spec" := Obj(m)])
    ensures ["spec"] + ["volumes"] == ["spec", "volumes"] && ["spec"] + ["initContainers"] == ["spec", "initContainers"]
    ensures "volumes" != "initContainers"
  {
    assert ["spec"][1..] == [];
  }

  lemma SpecListsApply(doc: Json, pod: Pod, plan: MutationPlan)
    requires DecodePod(doc) == Ok(pod) && HasObject(doc, "spec")
    ensures Apply(doc, ListOps(SpecPath("volumes"), pod.Volumes(), VolumeItems(plan.volumes))
                       + ListOps(SpecPath("initContainers"), pod.InitContainers(), InitItems(plan.initContainers))) ==
            Some(Obj(doc.members["spec" :=
              Obj(AddFresh(AddFresh(doc.members["spec"].members, "volumes", VolumeItems(plan.volumes)),
                           "initContainers", InitItems(plan.initContainers)))]))
  {
    PlainKeys();
    PodMembers(doc, pod);
    SpecPointer("volumes");
    SpecPointer("initContainers");
    var m := doc.members["spec"].members;
    var m2 := AddFresh(AddFresh(m, "volumes", VolumeItems(plan.volumes)), "initContainers", InitItems(plan.initContainers));
    SpecNode(doc, m2);
    TwoListsApply(
      doc, ["spec"], m,
      "volumes", pod.Volumes(), VolumeItems(plan.volumes),
      "initContainers", pod.InitContainers(), InitItems(plan.initContainers));
  }

  lemma SpecApplies(doc: Json, pod: Pod, plan: MutationPlan)
    requires DecodePod(doc) == Ok(pod) && HasObject(doc, "spec")
    ensures Apply(doc, SpecOps(pod, plan)) ==
            Some(Obj(doc.members["spec" := Obj(InjectSpecDoc(doc.members["spec"].members, plan))]))
  {
    var d, m := doc.members, doc.members["spec"].members;
    var m2 := AddFresh(AddFresh(m, "volumes", VolumeItems(plan.volumes)), "initContainers", InitItems(plan.initContainers));
    var cs := pod.Containers();
    SpecListsApply(doc, pod, plan);
    PodMembers(doc, pod);
    ApplyAppend(
      doc,
      ListOps(SpecPath("volumes"), pod.Volumes(), VolumeItems(plan.volumes))
      + ListOps(SpecPath("initContainers"), pod.InitContainers(), InitItems(plan.initContainers)),
      ContainersOps(cs, |cs|, plan));
    AddFreshKeeps(m, "volumes", VolumeItems(plan.volumes), "containers");
    AddFreshKeeps(AddFresh(m, "volumes", VolumeItems(plan.volumes)), "initContainers", InitItems(plan.initContainers), "containers");
    if Member(m, "containers").Arr? {
      var js := m["containers"].items;
      assert m2["containers" := Arr(js)] == m2;
      ContainersApply(d, m2, js, cs, |js|, plan);
    }
  }

  lemma AddFreshKeeps(m: map<string, Json>, key: string, items: seq<Item>, other: string)
    requires key != other
    ensures Member(AddFresh(m, key, items), other) == Member(m, other)
    ensures other in AddFresh(m, key, items) <==> other in m
  {
  }

  lemma EscapeSlash(a: string, b: string)
    requires Plain(a) && Plain(b)
    ensures Escape(a + ("/" + b)) == a + ("~1" + b)
  {
    EscapePlain(a);
    EscapePlain(b);
    EscapeAppend(a, "/" + b);
    assert ("/" + b)[1..] == b;
  }

  lemma MarkerKeyParts()
    ensures K_INJECTED == "cwii.dev" + ("/" + "injected")
    ensures ESCAPED_MARKER_KEY == "cwii.dev" + ("~1" + "injected")
  {
  }

  lemma MarkerKeyPlain()
    ensures Plain("cwii.dev") && Plain("injected")
  {
  }

  lemma AnnotationsPointer()
    ensures AnnotationsPath() == Pointer(["metadata", "annotations"])
  {
    PlainKeys();
    PointerTwo("metadata", "annotations");
  }

  lemma PointerThree(k1: string, k2: string, k3: string)
    ensures Pointer([k1, k2]) + ("/" + Escape(k3)) == Pointer([k1, k2, k3])
  {
    PointerSnocEscaped([k1, k2], k3);
    assert [k1, k2] + [k3] == [k1, k2, k3];
  }

  lemma AnnotationPointer(key: string)
    ensures Under(AnnotationsPath(), Escape(key)) == Pointer(["metadata", "annotations", key])
  {
    AnnotationsPointer();
    PointerThree("metadata", "annotations", key);
  }

  /** The marker path decodes to the marker key: `~1` reads as `/`. */
  lemma MarkerPointer()
    ensures Escape(K_INJECTED) == ESCAPED_MARKER_KEY
    ensures Unescape(ESCAPED_MARKER_KEY) == Some(K_INJECTED)
  {
    MarkerKeyParts();
    MarkerKeyPlain();
    EscapeSlash("cwii.dev", "injected");
    UnescapeEscape(K_INJECTED);
  }

  lemma AddTwoDown(d: map<string, Json>, k1: string, k2: string, value: Json)
    ensures Member(d, k1).Obj? ==> AddAt(Obj(d), [k1, k2], value) == Some(Obj(d[k1 := Obj(d[k1].members[k2 := value])]))
    ensures Member(d, k1) == Null ==> AddAt(Obj(d), [k1, k2], value) == None
  {
    assert [k1, k2][1..] == [k2];
    if k1 in d {
      assert d[k1].Null? ==> AddAt(d[k1], [k2], value) == None;
    }
  }

  lemma AddThreeDown(d: map<string, Json>, k1: string, k2: string, k3: string, value: Json)
    requires Member(d, k1).Obj? && Member(d[k1].members, k2).Obj?
    ensures AddAt(Obj(d), [k1, k2, k3], value) ==
            Some(Obj(d[k1 := Obj(d[k1].members[k2 := Obj(d[k1].members[k2].members[k3 := value])])]))
  {
    assert [k1, k2, k3][1..] == [k2, k3];
    AddTwoDown(d[k1].members, k2, k3, value);
  }

  lemma InjectedMeta(m: map<string, Json>, annotations: Scope, plan: MutationPlan)
    requires DecodeAnnotations(Member(m, "annotations")) == Ok(annotations)
    ensures var marker := Str(MarkerOf(OldMarker(annotations), plan.injectedProviders));
            if annotations.Some? then
              && Member(m, "annotations").Obj?
              && InjectMetaDoc(m, plan) == m["annotations" := Obj(m["annotations"].members[K_INJECTED := marker])]
            else
              InjectMetaDoc(m, plan) == m["annotations" := Obj(map[K_INJECTED := marker])]
  {
  }

  lemma SetMarker(d: map<string, Json>, marker: string)
    requires Member(d, "metadata").Obj?
    ensures Apply(Obj(d), [MarkerOp(false, marker)]) ==
            Some(Obj(d["metadata" := Obj(d["metadata"].members["annotations" := Obj(map[K_INJECTED := Str(marker)])])]))
  {
    AnnotationsPointer();
    ApplyOne(Obj(d), ["metadata", "annotations"], Obj(map[K_INJECTED := Str(marker)]));
    AddTwoDown(d, "metadata", "annotations", Obj(map[K_INJECTED := Str(marker)]));
  }

  lemma UpdateMarker(d: map<string, Json>, marker: string)
    requires Member(d, "metadata").Obj? && Member(d["metadata"].members, "annotations").Obj?
    ensures var m := d["metadata"].members;
            Apply(Obj(d), [MarkerOp(true, marker)]) ==
            Some(Obj(d["metadata" := Obj(m["annotations" := Obj(m["annotations"].members[K_INJECTED := Str(marker)])])]))
  {
    MarkerPointer();
    AnnotationPointer(K_INJECTED);
    ApplyOne(Obj(d), ["metadata", "annotations", K_INJECTED], Str(marker));
    AddThreeDown(d, "metadata", "annotations", K_INJECTED, Str(marker));
  }

  lemma MarkerApplies(d: map<string, Json>, annotations: Scope, plan: MutationPlan)
    requires Member(d, "metadata").Obj?
    requires DecodeAnnotations(Member(d["metadata"].members, "annotations")) == Ok(annotations)
    ensures Apply(Obj(d), [MarkerOp(annotations.Some?, MarkerOf(OldMarker(annotations), plan.injectedProviders))]) ==
            Some(Obj(d["metadata" := Obj(InjectMetaDoc(d["metadata"].members, plan))]))
  {
    InjectedMeta(d["metadata"].members, annotations, plan);
    if annotations.Some? {
      UpdateMarker(d, MarkerOf(OldMarker(annotations), plan.injectedProviders));
    } else {
      SetMarker(d, MarkerOf(OldMarker(annotations), plan.injectedProviders));
    }
  }

  // ---- exactly when the patch applies ----

  /** What the caller has to check: metadata is there, and so is the spec unless the plan leaves it alone. */
  predicate Patchable(doc: Json, plan: MutationPlan) {
    HasObject(doc, "metadata") && (HasObject(doc, "spec") || (plan.volumes == [] && plan.initContainers == []))
  }

  lemma OpsForMissingList(path: string, items: seq<Item>)
    ensures ListOps(path, None, items) == if items == [] then [] else [Add(path, Arr(Bodies(items)))]
  {
    FreshEverything(items);
    assert Names(None) == {};
  }

  /** Without a spec any addition below it fails, for want of a parent. */
  lemma NoSpecOps(doc: Json, pod: Pod, plan: MutationPlan)
    requires DecodePod(doc) == Ok(pod) && !HasObject(doc, "spec")
    ensures Apply(doc, SpecOps(pod, plan)) ==
            if plan.volumes == [] && plan.initContainers == [] then Some(doc) else None
  {
    PodMembers(doc, pod);
    var ops1 := ListOps(SpecPath("volumes"), None, VolumeItems(plan.volumes));
    var ops2 := ListOps(SpecPath("initContainers"), None, InitItems(plan.initContainers));
    assert SpecOps(pod, plan) == ops1 + ops2;
    ApplyAppend(doc, ops1, ops2);
    PlainKeys();
    MissingParentList(doc, "volumes", VolumeItems(plan.volumes));
    MissingParentList(doc, "initContainers", InitItems(plan.initContainers));
  }

  lemma MissingParentList(doc: Json, key: string, items: seq<Item>)
    requires doc.Obj? && Member(doc.members, "spec") == Null && Plain(key)
    ensures Apply(doc, ListOps(SpecPath(key), None, items)) == if items == [] then Some(doc) else None
  {
    OpsForMissingList(SpecPath(key), items);
    MissingParent(doc, key, Arr(Bodies(items)));
  }

  lemma MissingParent(doc: Json, key: string, value: Json)
    requires doc.Obj? && Member(doc.members, "spec") == Null && Plain(key)
    ensures Apply(doc, [Add(SpecPath(key), value)]) == None
  {
    SpecPointer(key);
    ApplyOne(doc, ["spec", key], value);
    AddTwoDown(doc.members, "spec", key, value);
  }

  lemma NoMetadataFails(d: map<string, Json>, marker: string)
    requires Member(d, "metadata") == Null
    ensures Apply(Obj(d), [MarkerOp(false, marker)]) == None
  {
    AnnotationsPointer();
    ApplyOne(Obj(d), ["metadata", "annotations"], Obj(map[K_INJECTED := Str(marker)]));
    AddTwoDown(d, "metadata", "annotations", Obj(map[K_INJECTED := Str(marker)]));
  }

  /** For every decodable document and every plan: the patch applies if and only if the document is patchable. */
  lemma PatchAppliesExactly(doc: Json, pod: Pod, plan: MutationPlan)
    requires DecodePod(doc) == Ok(pod)
    ensures Apply(doc, BuildOps(pod, plan)) == if Patchable(doc, plan) then Some(InjectDoc(doc, plan)) else None
  {
    PodMembers(doc, pod);
    ApplyAppend(doc, SpecOps(pod, plan), MarkerOps(pod, plan));
    if HasObject(doc, "spec") {
      SpecApplies(doc, pod, plan);
      var d1 := doc.members["spec" := Obj(InjectSpecDoc(doc.members["spec"].members, plan))];
      if HasObject(doc, "metadata") {
        MarkerApplies(d1, pod.annotations, plan);
      } else {
        NoMetadataFails(d1, MarkerOf(OldMarker(pod.annotations), plan.injectedProviders));
      }
    } else {
      NoSpecOps(doc, pod, plan);
      if HasObject(doc, "metadata") {
        MarkerApplies(doc.members, pod.annotations, plan);
      } else {
        NoMetadataFails(doc.members, MarkerOf(OldMarker(pod.annotations), plan.injectedProviders));
      }
    }
  }

  /** Every operation of every patch reads back from its JSON form, so the patch is never rejected as malformed. */
  lemma PatchIsWellFormed(pod: Pod, plan: MutationPlan)
    ensures ParsePatch(OpValues(BuildOps(pod, plan))) == Some(BuildOps(pod, plan))
  {
    SpecOpsHavePointers(pod, plan);
    MarkerPointer();
    AnnotationPointer(K_INJECTED);
    AnnotationsPointer();
    PointerRoundTrip(["metadata", "annotations", K_INJECTED]);
    PointerRoundTrip(["metadata", "annotations"]);
    ParsePatchValues(BuildOps(pod, plan));
  }

  ghost predicate HavePointers(ops: seq<Op>) {
    forall op :: op in ops ==> ParsePointer(op.path).Some?
  }

  lemma HavePointersAppend(a: seq<Op>, b: seq<Op>)
    requires HavePointers(a) && HavePointers(b)
    ensures HavePointers(a + b)
  {
  }

  lemma ListOpsHavePointers(tokens: seq<string>, key: string, list: ItemList, items: seq<Item>)
    ensures HavePointers(ListOps(Pointer(tokens + [key]), list, items))
  {
    var path, ops := Pointer(tokens + [key]), ListOps(Pointer(tokens + [key]), list, items);
    PointerRoundTrip(tokens + [key]);
    PointerRoundTrip(tokens + [key] + ["-"]);
    assert Plain("-");
    PointerSnoc(tokens + [key], "-");
    forall i | 0 <= i < |ops|
      ensures ops[i].path == path || ops[i].path == Under(path, "-")
    {
    }
  }

  lemma SpecListHasPointers(key: string, list: ItemList, items: seq<Item>)
    requires Plain(key)
    ensures HavePointers(ListOps(SpecPath(key), list, items))
  {
    SpecPointer(key);
    assert ["spec"] + [key] == ["spec", key];
    ListOpsHavePointers(["spec"], key, list, items);
  }

  lemma SpecOpsHavePointers(pod: Pod, plan: MutationPlan)
    ensures HavePointers(SpecOps(pod, plan))
  {
    PlainKeys();
    SpecListHasPointers("volumes", pod.Volumes(), VolumeItems(plan.volumes));
    SpecListHasPointers("initContainers", pod.InitContainers(), InitItems(plan.initContainers));
    ContainersOpsHavePointers(pod.Containers(), |pod.Containers()|, plan);
    var a := ListOps(SpecPath("volumes"), pod.Volumes(), VolumeItems(plan.volumes));
    var b := ListOps(SpecPath("initContainers"), pod.InitContainers(), InitItems(plan.initContainers));
    HavePointersAppend(a, b);
    HavePointersAppend(a + b, ContainersOps(pod.Containers(), |pod.Containers()|, plan));
  }

  lemma ContainerOpsHavePointers(c: Container, i: nat, plan: MutationPlan)
    ensures HavePointers(ContainerOps(c, i, plan))
  {
    ContainerPaths(i);
    var mounts := ListOps(Under(ContainerPath(i), "volumeMounts"), c.volumeMounts, MountItems(plan.containerMounts));
    var env := ListOps(Under(ContainerPath(i), "env"), c.env, EnvItems(plan.containerEnv));
    ListOpsHavePointers(ContainerAt(i), "volumeMounts", c.volumeMounts, MountItems(plan.containerMounts));
    ListOpsHavePointers(ContainerAt(i), "env", c.env, EnvItems(plan.containerEnv));
    HavePointersAppend(mounts, env);
  }

  lemma {:induction false} ContainersOpsHavePointers(cs: seq<Container>, n: nat, plan: MutationPlan)
    requires n <= |cs|
    ensures HavePointers(ContainersOps(cs, n, plan))
  {
    if n > 0 {
      ContainersOpsHavePointers(cs, n - 1, plan);
      ContainerOpsHavePointers(cs[n - 1], n - 1, plan);
      HavePointersAppend(ContainersOps(cs, n - 1, plan), ContainerOps(cs[n - 1], n - 1, plan));
    }
  }
}
