/** From annotations to the containers of the patched pod, provider by provider. */
module EndToEnd {
  import opened Prelude
  import opened Text
  import opened JsonPatch
  import opened Items
  import opened Annotations
  import opened Resolve
  import opened Plan
  import opened Credentials
  import opened Pods
  import opened Patch
  import opened Injection
  import opened Frames
  import opened PatchedPods
  import opened Providers
  import opened MergedPlans
  import opened Paths
  import opened Inits
  import opened Cluster
  import opened Admission
  import opened AdmissionTheorems
  import ProviderGcp

  // ---- which requests are answered with a patch ----

  lemma {:induction false} SomePlanExactly(providers: seq<Provider>, prim: Primitives, ctx: ProviderContext)
    requires PlanAll(providers, prim, ctx).Ok?
    ensures PlanAll(providers, prim, ctx).value != [] <==>
            exists q :: q in providers && q.Enabled(ctx.annotations) && Configured(q, ctx.annotations)
  {
    if providers != [] {
      var init, last := providers[..|providers| - 1], providers[|providers| - 1];
      assert providers == init + [last];
      SomePlanExactly(init, prim, ctx);
      PlanOutcomeExactly(last, prim, ctx);
    }
  }

  /** Some write of the plan is refused. */
  ghost predicate Refused(world: World, namespace: string, plan: MutationPlan) {
    exists u :: u in plan.configmapUpserts && world.refuses(MapKey(namespace, u.name))
  }

  /**
   * Once reads and plans succeed, a request is allowed as it is exactly when no provider that takes part is
   * configured, and patched exactly when one is and, unless it is a dry run, no write is refused.
   */
  lemma PatchedExactly(server: Server, req: Request, pod: Pod, world: World, ctx: ProviderContext)
    requires DistinctIds(server.providers) && req.target == Some(pod)
    requires ContextIs(server.core, req, pod, world.view, ctx)
    requires PlanAll(server.providers, server.prim, ctx).Ok?
    ensures var outcome, plan := OutcomeOf(server, Some(req), world), Merged(PlanAll(server.providers, server.prim, ctx).value);
            var takesPart := exists q :: q in server.providers && q.Enabled(ctx.annotations) && Configured(q, ctx.annotations);
            && (outcome.Allowed? <==> !takesPart)
            && (outcome.Patched? <==> takesPart && (req.dryRun || !Refused(world, ctx.namespace, plan)))
  {
    SomePlanExactly(server.providers, server.prim, ctx);
    OutcomeExactly(server, req, pod, world, ctx, map[]);
    var plans := PlanAll(server.providers, server.prim, ctx).value;
    if plans != [] {
      SettledMeans(server, req, world, map[], ctx.namespace, Merged(plans), BuildOps(pod, Merged(plans)));
    }
  }

  lemma SettledMeans(
    server: Server, req: Request, world: World, maps: map<MapKey, ConfigMap>,
    namespace: string, plan: MutationPlan, ops: seq<Op>)
    requires Settled(server, req, world, maps, namespace, plan.configmapUpserts, ops) && |plan.configmapUpserts| <= 1
    ensures var outcome := OutcomeOf(server, Some(req), world);
            && (outcome.Patched? <==> req.dryRun || !Refused(world, namespace, plan))
            && !outcome.Allowed?
  {
    if plan.configmapUpserts != [] {
      assert plan.configmapUpserts[0] in plan.configmapUpserts;
    }
  }

  // ---- a request that is answered with a patch ----

  /** The answer to the request for this document is a patch, and `q` is one of the providers that take part. */
  ghost predicate Answered(
    server: Server, req: Request, doc: Json, pod: Pod, world: World, ctx: ProviderContext, q: Provider)
  {
    && DecodePod(doc) == Ok(pod) && HasObject(doc, "metadata") && HasObject(doc, "spec")
    && DistinctIds(server.providers)
    && req.target == Some(pod) && ContextIs(server.core, req, pod, world.view, ctx)
    && OutcomeOf(server, Some(req), world).Patched?
    && q in server.providers && q.Enabled(ctx.annotations) && Configured(q, ctx.annotations)
  }

  /** The document after the answer is applied. */
  function AfterAnswer(server: Server, req: Request, doc: Json, world: World): Option<Json> {
    match OutcomeOf(server, Some(req), world)
    case Patched(ops) => Apply(doc, ops)
    case _ => Some(doc)
  }

  /** `plan` is the merge of what the providers plan, and `q` contributes to it. */
  ghost predicate PlannedFor(providers: seq<Provider>, prim: Primitives, ctx: ProviderContext, q: Provider, plan: MutationPlan) {
    && DistinctIds(providers) && q in providers && q.Enabled(ctx.annotations)
    && PlanAll(providers, prim, ctx).Ok? && plan == Merged(PlanAll(providers, prim, ctx).value)
    && q.PlanOf(prim, ctx).Ok? && q.PlanOf(prim, ctx).value.Some?
  }

  /** The plan's entries have names of their own, and volumes carry theirs. */
  ghost predicate PlanNamed(plan: MutationPlan) {
    && DistinctBy(plan.volumes, VolumeName) && DistinctBy(plan.containerMounts, MountName)
    && DistinctBy(plan.containerEnv, VariableName) && DistinctBy(plan.initContainers, InitName)
    && VolumesNamed(plan.volumes)
  }

  lemma DistinctNamesBy<T(!new)>(xs: seq<T>, name: T -> string, items: seq<Item>)
    requires |items| == |xs| && forall i :: 0 <= i < |xs| ==> items[i].name == name(xs[i])
    requires Distinct(NameSeq(items))
    ensures DistinctBy(xs, name)
  {
    forall i, j | 0 <= i < |xs| && 0 <= j < |xs| && name(xs[i]) == name(xs[j])
      ensures i == j
    {
      assert NameSeq(items)[i] == name(xs[i]) && NameSeq(items)[j] == name(xs[j]);
    }
  }

  lemma SelfNamedVolumes(vs: seq<VolumeSpec>)
    requires SelfNamed(VolumeItems(vs)) && forall v :: v in vs ==> v.name != ""
    ensures VolumesNamed(vs)
  {
    forall v | v in vs
      ensures v.value.Obj? && NodeAt(v.value, ["name"]) == Some(Str(v.name))
    {
      var i :| 0 <= i < |vs| && vs[i] == v;
      assert DecodeItem(VolumeItems(vs)[i].body) == Ok(VolumeItems(vs)[i]);
      MemberNode(v.value.members, "name");
    }
  }

  lemma MergedNamed(providers: seq<Provider>, prim: Primitives, ctx: ProviderContext)
    requires DistinctIds(providers) && PlanAll(providers, prim, ctx).Ok?
    ensures PlanNamed(Merged(PlanAll(providers, prim, ctx).value))
  {
    var plan := Merged(PlanAll(providers, prim, ctx).value);
    MergedWellPlanned(providers, prim, ctx);
    DistinctNamesBy(plan.volumes, VolumeName, VolumeItems(plan.volumes));
    DistinctNamesBy(plan.containerMounts, MountName, MountItems(plan.containerMounts));
    DistinctNamesBy(plan.containerEnv, VariableName, EnvItems(plan.containerEnv));
    DistinctNamesBy(plan.initContainers, InitName, InitItems(plan.initContainers));
    forall v | v in plan.volumes
      ensures v.name != ""
    {
      var i :| 0 <= i < |plan.volumes| && plan.volumes[i] == v;
      assert NameSeq(VolumeItems(plan.volumes))[i] == v.name;
      assert v.name in NameSeq(VolumeItems(plan.volumes));
    }
    SelfNamedVolumes(plan.volumes);
  }

  lemma TakesPart(providers: seq<Provider>, prim: Primitives, ctx: ProviderContext, q: Provider)
    requires DistinctIds(providers) && q in providers && q.Enabled(ctx.annotations) && Configured(q, ctx.annotations)
    requires PlanAll(providers, prim, ctx).Ok?
    ensures PlannedFor(providers, prim, ctx, q, Merged(PlanAll(providers, prim, ctx).value))
  {
    PlanAllHas(providers, prim, ctx, q);
    PlanOutcomeExactly(q, prim, ctx);
  }

  lemma PlansInContext(server: Server, req: Request, pod: Pod, view: Reads, ctx: ProviderContext)
    requires ContextIs(server.core, req, pod, view, ctx)
    ensures PlansFor(server, req, pod, view) == PlanAll(server.providers, server.prim, ctx)
  {
    ContextExactly(server.core, req, pod, view);
  }

  lemma AnswerApplied(server: Server, req: Request, doc: Json, pod: Pod, world: World, ctx: ProviderContext)
    requires req.target == Some(pod) && ContextIs(server.core, req, pod, world.view, ctx)
    requires OutcomeOf(server, Some(req), world).Patched?
    ensures PlanAll(server.providers, server.prim, ctx).Ok?
    ensures AfterAnswer(server, req, doc, world) ==
            Apply(doc, BuildOps(pod, Merged(PlanAll(server.providers, server.prim, ctx).value)))
  {
    PlansInContext(server, req, pod, world.view, ctx);
    PatchedOps(server, req, pod, world);
  }

  /** The answer is the patch of the plan, and it applies. */
  lemma AnsweredPlan(server: Server, req: Request, doc: Json, pod: Pod, world: World, ctx: ProviderContext, q: Provider, i: nat)
    returns (plan: MutationPlan, patched: Json)
    requires Answered(server, req, doc, pod, world, ctx, q)
    ensures PlannedFor(server.providers, server.prim, ctx, q, plan) && PlanNamed(plan)
    ensures AfterAnswer(server, req, doc, world) == Some(patched)
    ensures SpecWritten(doc, patched, plan)
    ensures i < |pod.Containers()| ==> ContainerWritten(doc, patched, plan, i)
  {
    AnswerApplied(server, req, doc, pod, world, ctx);
    TakesPart(server.providers, server.prim, ctx, q);
    plan := Merged(PlanAll(server.providers, server.prim, ctx).value);
    MergedNamed(server.providers, server.prim, ctx);
    PatchedDocument(doc, pod, plan);
    patched := Apply(doc, BuildOps(pod, plan)).value;
  }

  // ---- variables ----

  lemma VariableInDocument(doc: Json, patched: Json, plan: MutationPlan, name: string, value: string, i: nat) returns (k: int)
    requires PlanNamed(plan) && ContainerWritten(doc, patched, plan, i) && TheVariable(plan, name, value)
    requires !Named(ListAt(doc, ContainerList(i, "env")), name)
    ensures var env := ListAt(patched, ContainerList(i, "env"));
            OnlyOne(env, name, k) && NodeAt(env[k], ["value"]) == Some(Str(value))
  {
    k := OneAdded(
      ListAt(doc, ContainerList(i, "env")), ListAt(patched, ContainerList(i, "env")),
      plan.containerEnv, VariableName, WritesVariable, EnvVar(name, value));
  }

  /**
   * Every main container of the patched pod has every variable the provider must set, once, with the value
   * resolved for it, unless the container had a variable of that name already.
   */
  lemma ContainersHaveTheVariables(
    server: Server, req: Request, doc: Json, pod: Pod, world: World, ctx: ProviderContext, q: Provider, i: nat, name: string)
    returns (k: int)
    requires Answered(server, req, doc, pod, world, ctx, q) && i < |pod.Containers()|
    requires name in Variables(q, ctx) && Variables(q, ctx)[name].Some?
    requires !Named(ListAt(doc, ContainerList(i, "env")), name)
    ensures AfterAnswer(server, req, doc, world).Some?
    ensures var env := ListAt(AfterAnswer(server, req, doc, world).value, ContainerList(i, "env"));
            && OnlyOne(env, name, k)
            && NodeAt(env[k], ["value"]) == Some(Str(Variables(q, ctx)[name].value))
  {
    var plan, patched := AnsweredPlan(server, req, doc, pod, world, ctx, q, i);
    EnvironmentAgrees(server.providers, server.prim, ctx, q, name);
    k := VariableInDocument(doc, patched, plan, name, Variables(q, ctx)[name].value, i);
  }

  // ---- mounts and volumes ----

  /** Mount `k` is the only one of this name, read-only, and the file in its directory is at `path`. */
  ghost predicate MountedAt(mounts: seq<Json>, name: string, k: int, path: string, file: string) {
    && OnlyOne(mounts, name, k)
    && NodeAt(mounts[k], ["readOnly"]) == Some(Bool(true))
    && exists dir :: NodeAt(mounts[k], ["mountPath"]) == Some(Str(dir)) && path == dir + "/" + file
  }

  /** The mount and the volume that serve a path are in the patched document, once each, as planned. */
  lemma ServedInDocument(
    doc: Json, patched: Json, plan: MutationPlan, root: string, path: string, kind: VolumeKind, file: string, content: Json, i: nat)
    returns (k: int, v: int)
    requires PlanNamed(plan) && Serves(plan, root, path, kind, file, content)
    requires SpecWritten(doc, patched, plan) && ContainerWritten(doc, patched, plan, i)
    requires !Named(ListAt(doc, ContainerList(i, "volumeMounts")), kind.Name())
    requires !Named(ListAt(doc, ["spec", "volumes"]), kind.Name())
    ensures MountedAt(ListAt(patched, ContainerList(i, "volumeMounts")), kind.Name(), k, path, file)
    ensures var volumes := ListAt(patched, ["spec", "volumes"]);
            OnlyOne(volumes, kind.Name(), v) && volumes[v] == content
  {
    var mount, volume := kind.Mount(root), VolumeSpec(kind.Name(), content);
    assert mount in plan.containerMounts && volume in plan.volumes;
    k := OneAdded(
      ListAt(doc, ContainerList(i, "volumeMounts")), ListAt(patched, ContainerList(i, "volumeMounts")),
      plan.containerMounts, MountName, WritesMount, mount);
    v := OneAdded(
      ListAt(doc, ["spec", "volumes"]), ListAt(patched, ["spec", "volumes"]), plan.volumes, VolumeName, WritesVolume, volume);
  }

  lemma KindNames(id: ProviderId)
    ensures TokenOf(id).Name() == TokenName(id)
    ensures Creds.Name() == "cwii-gcp-creds"
  {
  }

  /**
   * Every main container of the patched pod has its provider's token where the variables say, from the one
   * volume of the token's name, which requests a token for the provider's audience and of the resolved
   * lifetime, unless the pod had a mount or a volume of that name already.
   */
  lemma ContainersHaveTheToken(
    server: Server, req: Request, doc: Json, pod: Pod, world: World, ctx: ProviderContext, q: Provider, i: nat)
    returns (k: int, v: int)
    requires Answered(server, req, doc, pod, world, ctx, q) && i < |pod.Containers()|
    requires !Named(ListAt(doc, ContainerList(i, "volumeMounts")), TokenName(q.Id()))
    requires !Named(ListAt(doc, ["spec", "volumes"]), TokenName(q.Id()))
    ensures AfterAnswer(server, req, doc, world).Some?
    ensures var patched := AfterAnswer(server, req, doc, world).value;
            var volumes := ListAt(patched, ["spec", "volumes"]);
            && MountedAt(
                 ListAt(patched, ContainerList(i, "volumeMounts")), TokenName(q.Id()), k,
                 TokenPath(server.core.mountRoot, q.Id()), "token")
            && OnlyOne(volumes, TokenName(q.Id()), v)
            && SuppliesToken(volumes[v], AudienceFor(q, ctx.annotations), LifetimeFor(q.Id(), ctx), "token")
  {
    var plan, patched := AnsweredPlan(server, req, doc, pod, world, ctx, q, i);
    KindNames(q.Id());
    TokenPathAgrees(server.providers, server.prim, ctx, q);
    k, v := ServedInDocument(
      doc, patched, plan, ctx.mountRoot, TokenPath(ctx.mountRoot, q.Id()), TokenOf(q.Id()), "token",
      TokenFor(q, ctx).Volume().value, i);
  }

  /** How the patched document provides the credentials file of a volume, for each way of delivery. */
  ghost predicate FileProvided(
    patched: Json, volume: Json, d: ProviderGcp.Delivery, q: Provider, prim: Primitives, ctx: ProviderContext)
    requires q.GcpProvider?
  {
    match d
    case ConfigMapDelivery =>
      ShowsConfigMap(volume, CredentialsName(q, prim, ctx), "credentials.json", "credentials.json")
    case InitContainerDelivery =>
      exists t, c, text ::
        && OnlyOne(ListAt(patched, ["spec", "initContainers"]), "cwii-gcp-creds-writer", t)
        && WritesInit(ListAt(patched, ["spec", "initContainers"])[t], c)
        && WritesFile(c, q.gcp.initImage, "cwii-gcp-creds", "credentials.json", text)
        && CredentialsText(text, q, prim, ctx)
  }

  lemma InitInDocument(doc: Json, patched: Json, plan: MutationPlan, c: InitContainer) returns (t: int)
    requires PlanNamed(plan) && SpecWritten(doc, patched, plan) && c in plan.initContainers
    requires !Named(ListAt(doc, ["spec", "initContainers"]), c.name)
    ensures OnlyOne(ListAt(patched, ["spec", "initContainers"]), c.name, t)
    ensures WritesInit(ListAt(patched, ["spec", "initContainers"])[t], c)
  {
    t := OneAdded(
      ListAt(doc, ["spec", "initContainers"]), ListAt(patched, ["spec", "initContainers"]),
      plan.initContainers, InitName, WritesInit, c);
  }

  /**
   * Every main container of a patched GCP pod has the credentials file where the variable says, from the one
   * volume of the credentials' name: shown from the ConfigMap named after audience and account, or written by
   * the one init container of the writer's name, as the pod's delivery mode says; unless the pod had a mount,
   * a volume or an init container of those names already.
   */
  lemma ContainersHaveTheCredentials(
    server: Server, req: Request, doc: Json, pod: Pod, world: World, ctx: ProviderContext, q: Provider, i: nat)
    returns (k: int, v: int, d: ProviderGcp.Delivery)
    requires Answered(server, req, doc, pod, world, ctx, q) && i < |pod.Containers()| && q.GcpProvider?
    requires !Named(ListAt(doc, ContainerList(i, "volumeMounts")), "cwii-gcp-creds")
    requires !Named(ListAt(doc, ["spec", "volumes"]), "cwii-gcp-creds")
    requires !Named(ListAt(doc, ["spec", "initContainers"]), "cwii-gcp-creds-writer")
    ensures AfterAnswer(server, req, doc, world).Some?
    ensures var patched := AfterAnswer(server, req, doc, world).value;
            var volumes := ListAt(patched, ["spec", "volumes"]);
            && MountedAt(
                 ListAt(patched, ContainerList(i, "volumeMounts")), "cwii-gcp-creds", k,
                 CredsPath(server.core.mountRoot), "credentials.json")
            && OnlyOne(volumes, "cwii-gcp-creds", v)
            && Delivers(q.gcp, ctx.annotations, d)
            && FileProvided(patched, volumes[v], d, q, server.prim, ctx)
  {
    var plan, patched := AnsweredPlan(server, req, doc, pod, world, ctx, q, i);
    var volume, text;
    d, volume, text := PlannedCredentials(server.providers, server.prim, ctx, q, plan);
    KindNames(Gcp);
    k, v := ServedInDocument(doc, patched, plan, ctx.mountRoot, CredsPath(ctx.mountRoot), Creds, "credentials.json", volume, i);
    FileInDocument(doc, patched, plan, volume, d, q, server.prim, ctx, text);
  }

  lemma PlannedCredentials(providers: seq<Provider>, prim: Primitives, ctx: ProviderContext, q: Provider, plan: MutationPlan)
    returns (d: ProviderGcp.Delivery, volume: Json, text: string)
    requires PlannedFor(providers, prim, ctx, q, plan) && q.GcpProvider?
    ensures Delivers(q.gcp, ctx.annotations, d)
    ensures Serves(plan, ctx.mountRoot, CredsPath(ctx.mountRoot), Creds, "credentials.json", volume)
    ensures Supplied(plan, q.gcp.initImage, volume, d, CredentialsName(q, prim, ctx), text)
    ensures CredentialsText(text, q, prim, ctx)
  {
    CredentialsPathAgrees(providers, prim, ctx, q);
    d, volume, text :|
      && Delivers(q.gcp, ctx.annotations, d)
      && Serves(plan, ctx.mountRoot, CredsPath(ctx.mountRoot), Creds, "credentials.json", volume)
      && Supplied(plan, q.gcp.initImage, volume, d, CredentialsName(q, prim, ctx), text)
      && CredentialsText(text, q, prim, ctx);
  }

  lemma FileInDocument(
    doc: Json, patched: Json, plan: MutationPlan, volume: Json, d: ProviderGcp.Delivery,
    q: Provider, prim: Primitives, ctx: ProviderContext, text: string)
    requires PlanNamed(plan) && SpecWritten(doc, patched, plan) && q.GcpProvider?
    requires Supplied(plan, q.gcp.initImage, volume, d, CredentialsName(q, prim, ctx), text) && CredentialsText(text, q, prim, ctx)
    requires !Named(ListAt(doc, ["spec", "initContainers"]), "cwii-gcp-creds-writer")
    ensures FileProvided(patched, volume, d, q, prim, ctx)
  {
    if d.InitContainerDelivery? {
      var c :| c in plan.initContainers && WritesFile(c, q.gcp.initImage, "cwii-gcp-creds", "credentials.json", text);
      var t := InitInDocument(doc, patched, plan, c);
      assert OnlyOne(ListAt(patched, ["spec", "initContainers"]), "cwii-gcp-creds-writer", t);
    }
  }

  // ---- verifiers ----

  /** A verifier with the variables of the main containers and their mounts, the token's first. */
  ghost predicate VerifierOf(c: InitContainer, q: Provider, ctx: ProviderContext) {
    && VerifiesWith(c, ctx.annotations, q.Id(), DefaultVerifyImage(q), Check(q), c.env, c.mounts)
    && SetsExactly(c.env, Variables(q, ctx))
    && |c.mounts| == (if q.GcpProvider? then 2 else 1)
    && c.mounts[0].name == TokenName(q.Id()) && c.mounts[0].mountPath + "/" + "token" == TokenPath(ctx.mountRoot, q.Id())
    && (q.GcpProvider? ==>
          && c.mounts[1].name == "cwii-gcp-creds"
          && c.mounts[1].mountPath + "/" + "credentials.json" == CredsPath(ctx.mountRoot))
  }

  /** Where the mounts of one provider's plan are. */
  lemma MountsOf(q: Provider, prim: Primitives, ctx: ProviderContext)
    requires q.PlanOf(prim, ctx).Ok? && q.PlanOf(prim, ctx).value.Some?
    ensures var mounts := q.PlanOf(prim, ctx).value.value.containerMounts;
            && |mounts| == (if q.GcpProvider? then 2 else 1)
            && mounts[0] == TokenOf(q.Id()).Mount(ctx.mountRoot)
            && (q.GcpProvider? ==> mounts[1] == Creds.Mount(ctx.mountRoot))
  {
    TokenFacts(q, ctx);
    if q.GcpProvider? {
      GcpShape(q.gcp, prim, ctx, ProviderGcp.DeliveryFor(q.gcp, ctx.annotations).value);
    }
  }

  /**
   * A patched pod that asks for verification has one init container of the verifier's name: it runs the check
   * in the environment and with the mounts its provider plans for the main containers; unless the pod had an
   * init container of that name already.
   */
  lemma PodHasTheVerifier(
    server: Server, req: Request, doc: Json, pod: Pod, world: World, ctx: ProviderContext, q: Provider)
    returns (t: int, c: InitContainer)
    requires Answered(server, req, doc, pod, world, ctx, q)
    requires FirstCarries(
               [ctx.annotations.pod, ctx.annotations.owner, ctx.annotations.serviceAccount, ctx.annotations.namespace],
               KeysOf(q.Id()).verify, "true")
    requires !Named(ListAt(doc, ["spec", "initContainers"]), VerifierName(q.Id()))
    ensures AfterAnswer(server, req, doc, world).Some?
    ensures var inits := ListAt(AfterAnswer(server, req, doc, world).value, ["spec", "initContainers"]);
            OnlyOne(inits, VerifierName(q.Id()), t) && WritesInit(inits[t], c)
    ensures VerifierOf(c, q, ctx)
  {
    var plan, patched := AnsweredPlan(server, req, doc, pod, world, ctx, q, 0);
    c := PlannedVerifier(server.providers, server.prim, ctx, q, plan);
    t := InitInDocument(doc, patched, plan, c);
  }

  lemma PlannedVerifier(providers: seq<Provider>, prim: Primitives, ctx: ProviderContext, q: Provider, plan: MutationPlan)
    returns (c: InitContainer)
    requires PlannedFor(providers, prim, ctx, q, plan)
    requires FirstCarries(
               [ctx.annotations.pod, ctx.annotations.owner, ctx.annotations.serviceAccount, ctx.annotations.namespace],
               KeysOf(q.Id()).verify, "true")
    ensures c in plan.initContainers && c.name == VerifierName(q.Id())
    ensures VerifierOf(c, q, ctx)
  {
    var p := q.PlanOf(prim, ctx).value.value;
    VerifierSeesWhatContainersSee(q, prim, ctx);
    VariablesExactly(q, prim, ctx);
    MountsOf(q, prim, ctx);
    KindNames(q.Id());
    PathsSpelledOut(ctx.mountRoot, q.Id());
    PlanAllHas(providers, prim, ctx, q);
    PartOfMerged(PlanAll(providers, prim, ctx).value, p);
    c :| c in p.initContainers && c.name == VerifierName(q.Id());
    assert VerifiesWith(c, ctx.annotations, q.Id(), DefaultVerifyImage(q), Check(q), p.containerEnv, p.containerMounts);
  }

  // ---- an example ----

  const EXAMPLE := ProviderGcp.GcpConfig(Some("aud"), ProviderGcp.ConfigMapDelivery, "init", "verify", false)

  lemma ExampleSettings(a: AnnotationSet)
    requires a == AnnotationSet(Some(map["cwii.dev/gcp-inject" := "true"]), None, None, None)
    ensures Configured(GcpProvider(EXAMPLE), a)
    ensures Delivers(EXAMPLE, a, ProviderGcp.ConfigMapDelivery) && !UnknownDelivery(a)
  {
    assert |"cwii.dev/gcp-inject"| == 19 && |"cwii.dev/gcp-audience"| == 21 && |"cwii.dev/gcp-delivery"| == 21;
    QueriesExactly(a, "cwii.dev/gcp-audience");
    QueriesExactly(a, "cwii.dev/gcp-delivery");
    UsableExactly(a, "cwii.dev/gcp-delivery");
  }

  lemma ExampleAnnotations(a: AnnotationSet)
    requires a == AnnotationSet(Some(map["cwii.dev/gcp-inject" := "true"]), None, None, None)
    ensures GcpProvider(EXAMPLE).Enabled(a)
    ensures Configured(GcpProvider(EXAMPLE), a)
    ensures Delivers(EXAMPLE, a, ProviderGcp.ConfigMapDelivery) && !UnknownDelivery(a)
  {
    ExampleSettings(a);
    PlainTexts(a.pod, "cwii.dev/gcp-inject");
    EnabledExactly(GcpProvider(EXAMPLE), a);
  }

  /** A pod whose one annotation is the plain `true`, in an empty cluster that takes writes, is patched. */
  lemma ExampleIsPatched(prim: Primitives, doc: Json, pod: Pod) returns (server: Server, req: Request, world: World, ctx: ProviderContext)
    requires DecodePod(doc) == Ok(pod) && HasObject(doc, "metadata") && HasObject(doc, "spec")
    requires pod.annotations == Some(map["cwii.dev/gcp-inject" := "true"]) && pod.ownerReferences == None
    ensures server.prim == prim && !req.dryRun
    ensures Answered(server, req, doc, pod, world, ctx, GcpProvider(EXAMPLE))
    ensures Delivers(EXAMPLE, ctx.annotations, ProviderGcp.ConfigMapDelivery)
  {
    var q := GcpProvider(EXAMPLE);
    server := Server([q], CoreConfig("/cwii", 3600), prim);
    req := Request(Some(pod), Some("ns"), false);
    world := World(_ => Absent, _ => false);
    ctx := ProviderContext(AnnotationSet(pod.annotations, None, None, None), "ns", AccountOf(pod), "/cwii", 3600);
    assert ContextIs(server.core, req, pod, world.view, ctx);
    ExampleAnnotations(ctx.annotations);
    PlanOutcomeExactly(q, prim, ctx);
    PlanAllFailsExactly(server.providers, prim, ctx);
    PatchedExactly(server, req, pod, world, ctx);
  }

  lemma OneAnnotation(key: string, v: string)
    ensures DecodeAnnotations(Obj(map[key := Str(v)])) == Ok(Some(map[key := v]))
  {
    var m := map[key := Str(v)];
    assert forall k <- m :: m[k].Str?;
    assert (map k | k in m :: m[k].s) == map[key := v];
  }

  lemma OneContainer()
    ensures DecodeContainerList(Arr([Obj(map[])])) == Ok([Container(None, None)])
  {
    var js := [Obj(map[])];
    assert DecodeContainer(js[0]) == Ok(Container(None, None));
    assert js[1..] == [] && DecodeContainers(js[1..]) == Ok([]);
    assert DecodeContainers(js) == Ok([Container(None, None)] + []);
    assert [Container(None, None)] + [] == [Container(None, None)];
    assert DecodeContainerList(Arr(js)) == DecodeContainers(js);
  }

  lemma ExampleSpec()
    ensures DecodeSpec(Obj(map["containers" := Arr([Obj(map[])])])) == Ok(Some(PodSpec(None, None, None, [Container(None, None)])))
  {
    OneContainer();
    assert |"containers"| == 10 && |"volumes"| == 7 && |"initContainers"| == 14 && |"serviceAccountName"| == 18;
    SpecMembers(map["containers" := Arr([Obj(map[])])], PodSpec(None, None, None, [Container(None, None)]));
  }

  /** There are such documents. */
  lemma ExampleDocument() returns (doc: Json, pod: Pod)
    ensures DecodePod(doc) == Ok(pod) && HasObject(doc, "metadata") && HasObject(doc, "spec")
    ensures pod.annotations == Some(map["cwii.dev/gcp-inject" := "true"]) && pod.ownerReferences == None
    ensures |pod.Containers()| == 1
  {
    var meta: map<string, Json> := map["annotations" := Obj(map["cwii.dev/gcp-inject" := Str("true")])];
    var spec: map<string, Json> := map["containers" := Arr([Obj(map[])])];
    var d := map["metadata" := Obj(meta), "spec" := Obj(spec)];
    doc := Obj(d);
    pod := Pod(Some(map["cwii.dev/gcp-inject" := "true"]), None, None, Some(PodSpec(None, None, None, [Container(None, None)])));
    ExampleSpec();
    OneAnnotation("cwii.dev/gcp-inject", "true");
    assert |"metadata"| == 8 && |"spec"| == 4 && |"annotations"| == 11 && |"namespace"| == 9 && |"ownerReferences"| == 15;
    assert Member(d, "spec") == Obj(spec) && d["metadata"] == Obj(meta);
    assert Member(meta, "namespace") == Null && Member(meta, "ownerReferences") == Null;
    PodFromMembers(d, pod);
  }
}
