/** The init containers cwii injects: credentials writers and verifiers. */
module Inits {
  import opened Prelude
  import opened Text
  import opened JsonPatch
  import opened Items
  import opened Annotations
  import opened Resolve
  import opened Plan
  import opened Credentials
  import opened Providers
  import opened MergedPlans
  import opened Pods
  import opened Patch
  import opened Frames
  import ProviderGcp
  import ProviderAws
  import ProviderAz
  import Shell

  // ---- verifiers ----

  /** The verifier image of the server. */
  function DefaultVerifyImage(q: Provider): string {
    match q
    case GcpProvider(cfg) => cfg.verifyImage
    case AwsProvider(cfg) => cfg.verifyImage
    case AzProvider(cfg) => cfg.verifyImage
  }

  /** The command that checks a provider's credentials. */
  function Check(q: Provider): string {
    match q
    case GcpProvider(_) => "gcloud auth application-default print-access-token >/dev/null"
    case AwsProvider(_) => "aws sts get-caller-identity"
    case AzProvider(_) =>
      "az login --service-principal -u \"$AZURE_CLIENT_ID\" -t \"$AZURE_TENANT_ID\" --federated-token \"$(cat \"$AZURE_FEDERATED_TOKEN_FILE\")\" >/dev/null"
      + (" && " + "az account show >/dev/null")
  }

  /** The command as the provider's own constants give it. */
  function CheckOf(q: Provider): string {
    match q
    case GcpProvider(_) => ProviderGcp.CHECK
    case AwsProvider(_) => ProviderAws.CHECK
    case AzProvider(_) => Shell.Render(ProviderAz.CHECK)
  }

  lemma AzCheck()
    ensures Shell.Render(ProviderAz.CHECK) == ProviderAz.LOGIN + (" && " + ProviderAz.SHOW)
  {
    var rest := ProviderAz.CHECK.rest;
    assert rest[1..] == [];
    assert Shell.RenderRest(rest) == " && " + ProviderAz.SHOW + Shell.RenderRest(rest[1..]);
  }

  lemma CheckSpelledOut(q: Provider)
    ensures CheckOf(q) == Check(q)
  {
    if q.AzProvider? {
      AzCheck();
    }
  }

  function VerifierName(id: ProviderId): string {
    match id case Gcp => "cwii-gcp-verify" case Aws => "cwii-aws-verify" case Az => "cwii-az-verify"
  }

  /** The annotations about the verifier: whether there is one, whether it enforces, its image. */
  datatype VerifierKeys = VerifierKeys(verify: string, enforce: string, image: string)

  function KeysOf(id: ProviderId): VerifierKeys {
    match id
    case Gcp => VerifierKeys("cwii.dev/gcp-verify", "cwii.dev/gcp-verify-enforce", "cwii.dev/gcp-verify-image")
    case Aws => VerifierKeys("cwii.dev/aws-verify", "cwii.dev/aws-verify-enforce", "cwii.dev/aws-verify-image")
    case Az => VerifierKeys("cwii.dev/az-verify", "cwii.dev/az-verify-enforce", "cwii.dev/az-verify-image")
  }

  lemma VerifierTexts(id: ProviderId)
    ensures "cwii-" + id.Abbr() + "-verify" == VerifierName(id)
    ensures VerifyKey(id) == KeysOf(id).verify
    ensures VerifyEnforceKey(id) == KeysOf(id).enforce
    ensures VerifyImageKey(id) == KeysOf(id).image
  {
    match id case Gcp => GcpKeys(); case Aws => AwsKeys(); case Az => AzKeys();
  }

  /** A container that runs this check under the pod's settings, in this environment. */
  ghost predicate VerifiesWith(
    c: InitContainer, a: AnnotationSet, id: ProviderId, image: string, check: string,
    env: seq<EnvVar>, mounts: seq<VolumeMount>)
  {
    && c.name == VerifierName(id) && c.env == env && c.mounts == mounts
    && c.image == a.FirstNonEmpty(KeysOf(id).image).GetOr(image)
    && c.command == ["sh", "-c"]
    && c.args == [if FirstCarries([a.pod, a.owner, a.serviceAccount, a.namespace], KeysOf(id).enforce, "true") then check
                  else check + " || " + "echo 'cwii: verification check failed (non-enforcing)' >&2"]
  }

  /** The verifiers of these init containers: one if the pod asks for one, and as it should be. */
  ghost predicate VerifiersAsAsked(
    cs: seq<InitContainer>, a: AnnotationSet, id: ProviderId, image: string, check: string,
    env: seq<EnvVar>, mounts: seq<VolumeMount>)
  {
    && (FirstCarries([a.pod, a.owner, a.serviceAccount, a.namespace], KeysOf(id).verify, "true") <==>
        exists c :: c in cs && c.name == VerifierName(id))
    && forall c :: c in cs && c.name == VerifierName(id) ==> VerifiesWith(c, a, id, image, check, env, mounts)
  }

  /**
   * A plan holds a verifier exactly when the pod asks for one, and what it verifies is what the main
   * containers get: the same environment and the same mounts. It exits as the check does if the pod asks for
   * enforcement, and runs the check with the note otherwise.
   */
  lemma VerifierSeesWhatContainersSee(q: Provider, prim: Primitives, ctx: ProviderContext)
    requires q.PlanOf(prim, ctx).Ok? && q.PlanOf(prim, ctx).value.Some?
    ensures var p := q.PlanOf(prim, ctx).value.value;
            VerifiersAsAsked(
              p.initContainers, ctx.annotations, q.Id(), DefaultVerifyImage(q), Check(q), p.containerEnv, p.containerMounts)
  {
    var p := q.PlanOf(prim, ctx).value.value;
    CheckSpelledOut(q);
    match q {
      case GcpProvider(cfg) =>
        GcpVerifierAsked(cfg, prim, ctx, ProviderGcp.DeliveryFor(cfg, ctx.annotations).value);
      case AwsProvider(cfg) =>
        VerifierAsked(ctx, Aws, cfg.verifyImage, ProviderAws.CHECK, p.containerEnv, p.containerMounts);
      case AzProvider(cfg) =>
        VerifierAsked(ctx, Az, cfg.verifyImage, Shell.Render(ProviderAz.CHECK), p.containerEnv, p.containerMounts);
    }
  }

  lemma GcpVerifierAsked(cfg: ProviderGcp.GcpConfig, prim: Primitives, ctx: ProviderContext, d: ProviderGcp.Delivery)
    ensures var p := ProviderGcp.PlanFor(cfg, prim, ctx, d);
            VerifiersAsAsked(
              p.initContainers, ctx.annotations, Gcp, cfg.verifyImage, ProviderGcp.CHECK, p.containerEnv, p.containerMounts)
  {
    var p := ProviderGcp.PlanFor(cfg, prim, ctx, d);
    var text := ProviderGcp.CredsText(cfg, prim, ctx);
    var writers := ProviderGcp.DeliveryInits(d, cfg, text);
    var verifiers := Verifiers(ctx, Gcp, cfg.verifyImage, ProviderGcp.CHECK, p.containerEnv, p.containerMounts);
    VerifierIsNoWriter(Gcp);
    VerifierTexts(Gcp);
    GcpShape(cfg, prim, ctx, d);
    DeliveryPieces(cfg, d, ProviderGcp.NameFor(cfg, prim, ctx), text);
    VerifierAsked(ctx, Gcp, cfg.verifyImage, ProviderGcp.CHECK, p.containerEnv, p.containerMounts);
    assert forall c :: c in p.initContainers <==> c in writers || c in verifiers;
  }

  lemma VerifierAsked(
    ctx: ProviderContext, id: ProviderId, image: string, check: string, env: seq<EnvVar>, mounts: seq<VolumeMount>)
    ensures VerifiersAsAsked(Verifiers(ctx, id, image, check, env, mounts), ctx.annotations, id, image, check, env, mounts)
  {
    var vs := Verifiers(ctx, id, image, check, env, mounts);
    assert vs != [] ==> vs[0] in vs;
    VerifierTexts(id);
    QueriesExactly(ctx.annotations, KeysOf(id).verify);
    QueriesExactly(ctx.annotations, KeysOf(id).enforce);
  }

  // ---- all init containers ----

  /** No privilege escalation, no capabilities, small resources; the writer cannot touch its own root file system. */
  ghost predicate Hardened(c: InitContainer) {
    && NodeAt(c.securityContext, ["allowPrivilegeEscalation"]) == Some(Bool(false))
    && NodeAt(c.securityContext, ["capabilities"]) == Some(Obj(map["drop" := Arr([Str("ALL")])]))
    && (c.name == "cwii-gcp-creds-writer" ==> NodeAt(c.securityContext, ["readOnlyRootFilesystem"]) == Some(Bool(true)))
    && NodeAt(c.resources, ["requests"]) == Some(Obj(map["cpu" := Str("10m"), "memory" := Str("16Mi")]))
    && NodeAt(c.resources, ["limits"]) == Some(Obj(map["cpu" := Str("100m"), "memory" := Str("32Mi")]))
  }

  lemma ConstantsHardened(c: InitContainer)
    requires c.resources == WRITER_RESOURCES
    requires c.securityContext == HARDENED_WRITER_SECURITY_CONTEXT ||
             (c.securityContext == VERIFY_SECURITY_CONTEXT && c.name != "cwii-gcp-creds-writer")
    ensures Hardened(c)
  {
    var m := c.securityContext.members;
    MemberNode(m, "allowPrivilegeEscalation");
    MemberNode(m, "capabilities");
    MemberNode(m, "readOnlyRootFilesystem");
    MemberNode(c.resources.members, "requests");
    MemberNode(c.resources.members, "limits");
  }

  /** The init containers of a plan: the writer, exactly if it delivers that way, and the verifier. */
  ghost predicate InitsAre(cs: seq<InitContainer>, writes: bool, id: ProviderId) {
    && (writes <==> exists c :: c in cs && c.name == "cwii-gcp-creds-writer")
    && forall c :: c in cs ==> Hardened(c) && (c.name == "cwii-gcp-creds-writer" || c.name == VerifierName(id))
  }

  lemma VerifiersAre(
    ctx: ProviderContext, id: ProviderId, image: string, check: string, env: seq<EnvVar>, mounts: seq<VolumeMount>)
    ensures InitsAre(Verifiers(ctx, id, image, check, env, mounts), false, id)
  {
    VerifierIsNoWriter(id);
    VerifierTexts(id);
    forall c | c in Verifiers(ctx, id, image, check, env, mounts)
      ensures Hardened(c) && c.name == VerifierName(id)
    {
      ConstantsHardened(c);
    }
  }

  lemma GcpInits(cfg: ProviderGcp.GcpConfig, prim: Primitives, ctx: ProviderContext, d: ProviderGcp.Delivery)
    ensures var p := ProviderGcp.PlanFor(cfg, prim, ctx, d);
            && InitsAre(p.initContainers, d.InitContainerDelivery?, Gcp)
            && (p.configmapUpsert.Some? <==> d.ConfigMapDelivery?)
  {
    var p := ProviderGcp.PlanFor(cfg, prim, ctx, d);
    var text := ProviderGcp.CredsText(cfg, prim, ctx);
    var writers := ProviderGcp.DeliveryInits(d, cfg, text);
    GcpShape(cfg, prim, ctx, d);
    VerifiersAre(ctx, Gcp, cfg.verifyImage, ProviderGcp.CHECK, p.containerEnv, p.containerMounts);
    forall c | c in writers
      ensures Hardened(c) && c.name == "cwii-gcp-creds-writer"
    {
      ConstantsHardened(c);
    }
    assert writers != [] ==> writers[0] in p.initContainers;
  }

  /**
   * Which init containers a plan holds and whether it asks for a ConfigMap: a writer exactly for GCP delivery
   * by init container, a ConfigMap exactly for GCP delivery by ConfigMap; every container is hardened.
   */
  lemma SidecarsExactly(q: Provider, prim: Primitives, ctx: ProviderContext)
    requires q.PlanOf(prim, ctx).Ok? && q.PlanOf(prim, ctx).value.Some?
    ensures var p := q.PlanOf(prim, ctx).value.value;
            && InitsAre(p.initContainers, q.GcpProvider? && Delivers(q.gcp, ctx.annotations, ProviderGcp.InitContainerDelivery), q.Id())
            && (p.configmapUpsert.Some? <==>
                q.GcpProvider? && Delivers(q.gcp, ctx.annotations, ProviderGcp.ConfigMapDelivery))
  {
    var p := q.PlanOf(prim, ctx).value.value;
    match q {
      case GcpProvider(cfg) =>
        DeliveryExactly(cfg, ctx.annotations, ProviderGcp.ConfigMapDelivery);
        DeliveryExactly(cfg, ctx.annotations, ProviderGcp.InitContainerDelivery);
        GcpInits(cfg, prim, ctx, ProviderGcp.DeliveryFor(cfg, ctx.annotations).value);
      case AwsProvider(cfg) =>
        VerifiersAre(ctx, Aws, cfg.verifyImage, ProviderAws.CHECK, p.containerEnv, p.containerMounts);
      case AzProvider(cfg) =>
        VerifiersAre(ctx, Az, cfg.verifyImage, Shell.Render(ProviderAz.CHECK), p.containerEnv, p.containerMounts);
    }
  }

  function TokenName(id: ProviderId): string {
    match id case Gcp => "cwii-gcp-token" case Aws => "cwii-aws-token" case Az => "cwii-az-token"
  }

  lemma TokenNames(t: TokenSpec)
    ensures t.Volume().name == t.Mount().name == TokenName(t.provider) && t.Mount().readOnly
  {
  }

  lemma PlannedTokens(q: Provider, prim: Primitives, ctx: ProviderContext) returns (t: TokenSpec)
    requires q.PlanOf(prim, ctx).Ok? && q.PlanOf(prim, ctx).value.Some?
    ensures t.provider == q.Id()
    ensures var p := q.PlanOf(prim, ctx).value.value;
            && |p.volumes| == |p.containerMounts| == (if q.GcpProvider? then 2 else 1)
            && p.volumes[0] == t.Volume() && p.containerMounts[0] == t.Mount()
            && (q.GcpProvider? ==>
                  && p.volumes[1].name == p.containerMounts[1].name == ProviderGcp.CREDS_VOLUME
                  && p.containerMounts[1].readOnly)
  {
    match q {
      case GcpProvider(cfg) =>
        GcpShape(cfg, prim, ctx, ProviderGcp.DeliveryFor(cfg, ctx.annotations).value);
        DeliveryPieces(cfg, ProviderGcp.DeliveryFor(cfg, ctx.annotations).value, ProviderGcp.NameFor(cfg, prim, ctx), "");
        t := ProviderGcp.Token(cfg, ctx);
      case AwsProvider(cfg) =>
        t := ProviderAws.Token(cfg, ctx);
      case AzProvider(cfg) =>
        t := ProviderAz.Token(cfg, ctx);
    }
  }

  /** Volumes and mounts of a plan: the token's, and for GCP the credentials', each mounted read-only. */
  lemma VolumesExactly(q: Provider, prim: Primitives, ctx: ProviderContext)
    requires q.PlanOf(prim, ctx).Ok? && q.PlanOf(prim, ctx).value.Some?
    ensures var p := q.PlanOf(prim, ctx).value.value;
            && |p.volumes| == |p.containerMounts| == (if q.GcpProvider? then 2 else 1)
            && p.volumes[0].name == p.containerMounts[0].name == TokenName(q.Id())
            && (q.GcpProvider? ==> p.volumes[1].name == p.containerMounts[1].name == "cwii-gcp-creds")
            && forall m :: m in p.containerMounts ==> m.readOnly
  {
    var t := PlannedTokens(q, prim, ctx);
    TokenNames(t);
  }

  // ---- the order of init containers ----

  /** The writer has order 0, everything else order 10. */
  ghost predicate OrdersFixed(cs: seq<InitContainer>) {
    forall c :: c in cs ==> c.order == if c.name == "cwii-gcp-creds-writer" then 0 else 10
  }

  lemma VerifierIsNoWriter(id: ProviderId)
    ensures "cwii-" + id.Abbr() + "-verify" != "cwii-gcp-creds-writer"
  {
    var n := "cwii-" + id.Abbr() + "-verify";
    assert |n| <= 15 && |"cwii-gcp-creds-writer"| == 21;
  }

  lemma VerifierOrders(
    ctx: ProviderContext, id: ProviderId, image: string, check: string, env: seq<EnvVar>, mounts: seq<VolumeMount>)
    ensures OrdersFixed(Verifiers(ctx, id, image, check, env, mounts))
  {
    VerifierIsNoWriter(id);
    VerifierNames(ctx, id, image, check, env, mounts);
  }

  lemma ProviderOrders(q: Provider, prim: Primitives, ctx: ProviderContext)
    requires q.PlanOf(prim, ctx).Ok? && q.PlanOf(prim, ctx).value.Some?
    ensures OrdersFixed(q.PlanOf(prim, ctx).value.value.initContainers)
  {
    var p := q.PlanOf(prim, ctx).value.value;
    match q
    case GcpProvider(cfg) =>
      GcpShape(cfg, prim, ctx, ProviderGcp.DeliveryFor(cfg, ctx.annotations).value);
      VerifierOrders(ctx, Gcp, cfg.verifyImage, ProviderGcp.CHECK, p.containerEnv, p.containerMounts);
    case AwsProvider(cfg) =>
      VerifierOrders(ctx, Aws, cfg.verifyImage, ProviderAws.CHECK, p.containerEnv, p.containerMounts);
    case AzProvider(cfg) =>
      VerifierOrders(ctx, Az, cfg.verifyImage, Shell.Render(ProviderAz.CHECK), p.containerEnv, p.containerMounts);
  }

  lemma {:induction false} ConcatenatedOrders(providers: seq<Provider>, prim: Primitives, ctx: ProviderContext)
    requires PlanAll(providers, prim, ctx).Ok?
    ensures OrdersFixed(Concatenated(PlanAll(providers, prim, ctx).value).initContainers)
  {
    if providers != [] {
      var init, last := providers[..|providers| - 1], providers[|providers| - 1];
      ConcatenatedOrders(init, prim, ctx);
      if last.Enabled(ctx.annotations) && last.PlanOf(prim, ctx).value.Some? {
        var plan := last.PlanOf(prim, ctx).value.value;
        ProviderOrders(last, prim, ctx);
        ConcatenatedAppend(PlanAll(init, prim, ctx).value, [plan]);
        ConcatenatedOne(plan);
      }
    }
  }

  lemma LowerOrderFirst(cs: seq<InitContainer>, i: nat, j: nat)
    requires OrdersFixed(cs) && OrderSorted(cs) && i < |cs| && j < |cs|
    requires cs[i].name == "cwii-gcp-creds-writer" && cs[j].name != "cwii-gcp-creds-writer"
    ensures i < j
  {
    assert cs[i] in cs && cs[j] in cs;
  }

  /** On the patched pod the injected credentials writer comes before every injected verifier. */
  lemma WriterBeforeVerifiers(providers: seq<Provider>, prim: Primitives, ctx: ProviderContext, pod: Pod, i: nat, j: nat)
    requires PlanAll(providers, prim, ctx).Ok? && pod.spec.Some?
    ensures var plan := Merged(PlanAll(providers, prim, ctx).value);
            var added := FreshInits(Names(pod.InitContainers()), plan.initContainers);
            && InjectPod(pod, plan).InitContainers().GetOr([]) == pod.InitContainers().GetOr([]) + InitItems(added)
            && (|added| > i && |added| > j ==>
                  added[i].name == "cwii-gcp-creds-writer" && added[j].name != "cwii-gcp-creds-writer" ==> i < j)
  {
    var plans := PlanAll(providers, prim, ctx).value;
    var added := FreshInits(Names(pod.InitContainers()), Merged(plans).initContainers);
    ConcatenatedOrders(providers, prim, ctx);
    InjectedInitsInOrder(pod, plans);
    assert OrdersFixed(added);
    if i < |added| && j < |added| && added[i].name == "cwii-gcp-creds-writer" && added[j].name != "cwii-gcp-creds-writer" {
      LowerOrderFirst(added, i, j);
    }
  }
}
