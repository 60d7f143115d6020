/** The provider registry, what each provider reads, and what every merge of provider plans satisfies. */
module Providers {
  import opened Prelude
  import opened Text
  import opened JsonPatch
  import opened Items
  import opened Annotations
  import opened Resolve
  import opened Plan
  import opened Credentials
  import Shell
  import ProviderGcp
  import ProviderAws
  import ProviderAz

  datatype Provider =
    | GcpProvider(gcp: ProviderGcp.GcpConfig)
    | AwsProvider(aws: ProviderAws.AwsConfig)
    | AzProvider(az: ProviderAz.AzConfig)
  {
    function Id(): ProviderId {
      match this case GcpProvider(_) => Gcp case AwsProvider(_) => Aws case AzProvider(_) => Az
    }

    function Enabled(a: AnnotationSet): bool {
      match this
      case GcpProvider(cfg) => ProviderGcp.Enabled(cfg, a)
      case AwsProvider(cfg) => ProviderAws.Enabled(cfg, a)
      case AzProvider(cfg) => ProviderAz.Enabled(cfg, a)
    }

    function PlanOf(prim: Primitives, ctx: ProviderContext): Result<Option<ProviderPlan>> {
      match this
      case GcpProvider(cfg) => ProviderGcp.PlanOf(cfg, prim, ctx)
      case AwsProvider(cfg) => ProviderAws.PlanOf(cfg, ctx)
      case AzProvider(cfg) => ProviderAz.PlanOf(cfg, ctx)
    }

    method MakePlan(prim: Primitives, ctx: ProviderContext) returns (r: Result<Option<ProviderPlan>>)
      ensures r == PlanOf(prim, ctx)
    {
      match this
      case GcpProvider(cfg) => r := ProviderGcp.MakePlan(cfg, prim, ctx);
      case AwsProvider(cfg) => r := ProviderAws.MakePlan(cfg, ctx);
      case AzProvider(cfg) => r := ProviderAz.MakePlan(cfg, ctx);
    }

    /** The annotation keys this provider may read. */
    function Keys(): set<string> {
      match this
      case GcpProvider(_) => ProviderGcp.Keys()
      case AwsProvider(_) => ProviderAws.Keys()
      case AzProvider(_) => ProviderAz.Keys()
    }
  }

  // ---- the registry ----

  datatype ServerConfig = ServerConfig(
    gcpEnabled: bool, gcp: ProviderGcp.GcpConfig,
    awsEnabled: bool, aws: ProviderAws.AwsConfig,
    azEnabled: bool, az: ProviderAz.AzConfig)

  ghost predicate DistinctIds(providers: seq<Provider>) {
    forall i, j :: 0 <= i < j < |providers| ==> providers[i].Id() != providers[j].Id()
  }

  function Rank(id: ProviderId): nat {
    match id case Gcp => 0 case Aws => 1 case Az => 2
  }

  /** `Config::providers`: fixed order, one provider of each kind at most. */
  method Registry(c: ServerConfig) returns (providers: seq<Provider>)
    ensures DistinctIds(providers)
    ensures forall i, j :: 0 <= i < j < |providers| ==> Rank(providers[i].Id()) < Rank(providers[j].Id())
    ensures forall p :: p in providers <==>
              || (c.gcpEnabled && p == GcpProvider(c.gcp))
              || (c.awsEnabled && p == AwsProvider(c.aws))
              || (c.azEnabled && p == AzProvider(c.az))
  {
    providers := [];
    if c.gcpEnabled {
      providers := providers + [GcpProvider(c.gcp)];
    }
    if c.awsEnabled {
      providers := providers + [AwsProvider(c.aws)];
    }
    if c.azEnabled {
      providers := providers + [AzProvider(c.az)];
    }
  }

  // ---- who takes part ----

  function NativeKey(id: ProviderId): string {
    match id
    case Gcp => "iam.gke.io/gcp-service-account"
    case Aws => "eks.amazonaws.com/role-arn"
    case Az => "azure.workload.identity/client-id"
  }

  function ReadsNative(p: Provider): bool {
    match p
    case GcpProvider(cfg) => cfg.nativeAnnotations
    case AwsProvider(cfg) => cfg.nativeAnnotations
    case AzProvider(cfg) => cfg.nativeAnnotations
  }

  function SwitchKey(id: ProviderId): string {
    match id case Gcp => "cwii.dev/gcp-inject" case Aws => "cwii.dev/aws-inject" case Az => "cwii.dev/az-inject"
  }

  lemma SwitchKeys(id: ProviderId)
    ensures InjectKey(id) == SwitchKey(id)
  {
    match id case Gcp => GcpKeys(); case Aws => AwsKeys(); case Az => AzKeys();
  }

  /**
   * A provider takes part when, among pod, owner, ServiceAccount and namespace, the first whose inject
   * annotation spells `true` or `false` spells `true`; when none spells either, if native annotations are
   * honoured and some scope carries the provider's own with more than whitespace.
   */
  lemma EnabledExactly(p: Provider, a: AnnotationSet)
    ensures var scopes, key := [a.pod, a.owner, a.serviceAccount, a.namespace], SwitchKey(p.Id());
            p.Enabled(a) <==>
              || FirstCarries(scopes, key, "true")
              || (!FirstCarries(scopes, key, "true") && !FirstCarries(scopes, key, "false")
                  && ReadsNative(p) && Usable(a, NativeKey(p.Id())))
  {
    SwitchKeys(p.Id());
    QueriesExactly(a, SwitchKey(p.Id()));
    UsableExactly(a, NativeKey(p.Id()));
  }

  /** The plain text `false` disables a provider, unless a narrower scope spells `true`. */
  lemma FalseDisables(p: Provider, a: AnnotationSet, i: nat)
    requires i < 4
    requires var scope := [a.pod, a.owner, a.serviceAccount, a.namespace][i];
             scope.Some? && SwitchKey(p.Id()) in scope.value && scope.value[SwitchKey(p.Id())] == "false"
    requires forall j :: 0 <= j < i ==> !Carries([a.pod, a.owner, a.serviceAccount, a.namespace][j], SwitchKey(p.Id()), "true")
    ensures !p.Enabled(a)
  {
    SwitchKeys(p.Id());
    PlainTexts([a.pod, a.owner, a.serviceAccount, a.namespace][i], SwitchKey(p.Id()));
    NarrowFalseWins(a, SwitchKey(p.Id()), i);
  }

  function DefaultAudience(q: Provider): string {
    match q
    case GcpProvider(cfg) => cfg.defaultAudience.GetOr("")
    case AwsProvider(cfg) => cfg.defaultAudience
    case AzProvider(cfg) => cfg.defaultAudience
  }

  /** The audience a provider's token must carry: the annotation, or the server default. */
  function AudienceFor(q: Provider, a: AnnotationSet): string {
    a.FirstNonEmpty(
      match q.Id() case Gcp => "cwii.dev/gcp-audience" case Aws => "cwii.dev/aws-audience" case Az => "cwii.dev/az-audience")
    .GetOr(DefaultAudience(q))
  }

  lemma AudienceKeys(id: ProviderId)
    ensures AudienceKey(id) ==
            match id { case Gcp => "cwii.dev/gcp-audience" case Aws => "cwii.dev/aws-audience" case Az => "cwii.dev/az-audience" }
  {
    match id case Gcp => GcpKeys(); case Aws => AwsKeys(); case Az => AzKeys();
  }

  /** The settings a provider cannot do without are there. */
  ghost predicate Configured(p: Provider, a: AnnotationSet) {
    match p
    case GcpProvider(_) => AudienceFor(p, a) != ""
    case AwsProvider(cfg) =>
      Usable(a, "cwii.dev/aws-role-arn") || (cfg.nativeAnnotations && Usable(a, "eks.amazonaws.com/role-arn"))
    case AzProvider(cfg) =>
      && (Usable(a, "cwii.dev/az-client-id") || (cfg.nativeAnnotations && Usable(a, "azure.workload.identity/client-id")))
      && (Usable(a, "cwii.dev/az-tenant-id") || (cfg.nativeAnnotations && Usable(a, "azure.workload.identity/tenant-id")))
  }

  /** The text names a delivery mode, in any ASCII case and with an underscore for the hyphen if one likes. */
  predicate NamesMode(text: string, d: ProviderGcp.Delivery) {
    match d
    case ConfigMapDelivery => SpellsLoosely(text, "config-map") || SpellsLoosely(text, "configmap")
    case InitContainerDelivery => SpellsLoosely(text, "init-container") || SpellsLoosely(text, "initcontainer")
  }

  /** The delivery mode of a pod: what the first text among the scopes names, the server's when there is none. */
  ghost predicate Delivers(cfg: ProviderGcp.GcpConfig, a: AnnotationSet, d: ProviderGcp.Delivery) {
    var scopes := [a.pod, a.owner, a.serviceAccount, a.namespace];
    || (exists text :: FirstHolds(scopes, "cwii.dev/gcp-delivery", text) && NamesMode(text, d))
    || (!Usable(a, "cwii.dev/gcp-delivery") && d == cfg.delivery)
  }

  /** The first text among the scopes names no delivery mode. */
  ghost predicate UnknownDelivery(a: AnnotationSet) {
    var scopes := [a.pod, a.owner, a.serviceAccount, a.namespace];
    exists text :: FirstHolds(scopes, "cwii.dev/gcp-delivery", text)
                   && !NamesMode(text, ProviderGcp.ConfigMapDelivery) && !NamesMode(text, ProviderGcp.InitContainerDelivery)
  }

  lemma ModeWords(t: string)
    ensures var u := ReplaceChar(Lower(t), '_', '-');
            && (u == "config-map" <==> SpellsLoosely(t, "config-map"))
            && (u == "configmap" <==> SpellsLoosely(t, "configmap"))
            && (u == "init-container" <==> SpellsLoosely(t, "init-container"))
            && (u == "initcontainer" <==> SpellsLoosely(t, "initcontainer"))
  {
    LowerSpells(t, "config-map");
    LowerSpells(t, "configmap");
    LowerSpells(t, "init-container");
    LowerSpells(t, "initcontainer");
  }

  lemma ParseDeliveryExactly(text: string, d: ProviderGcp.Delivery)
    requires Trimmed(text)
    ensures ProviderGcp.ParseDelivery(text) == Ok(d) <==> NamesMode(text, d)
    ensures ProviderGcp.ParseDelivery(text).Err? <==>
            !NamesMode(text, ProviderGcp.ConfigMapDelivery) && !NamesMode(text, ProviderGcp.InitContainerDelivery)
  {
    TrimFacts(text);
    ModeWords(text);
    assert |"config-map"| == 10 && |"configmap"| == 9 && |"init-container"| == 14 && |"initcontainer"| == 13;
  }

  /** Which mode a pod's credentials are delivered in, and when that is an error. */
  lemma DeliveryExactly(cfg: ProviderGcp.GcpConfig, a: AnnotationSet, d: ProviderGcp.Delivery)
    ensures ProviderGcp.DeliveryFor(cfg, a) == Ok(d) <==> Delivers(cfg, a, d)
    ensures ProviderGcp.DeliveryFor(cfg, a).Err? <==> UnknownDelivery(a)
  {
    QueriesExactly(a, "cwii.dev/gcp-delivery");
    UsableExactly(a, "cwii.dev/gcp-delivery");
    if a.FirstNonEmpty("cwii.dev/gcp-delivery").Some? {
      ParseDeliveryExactly(a.FirstNonEmpty("cwii.dev/gcp-delivery").value, d);
    }
  }

  /**
   * What becomes of a provider that takes part: a denial exactly when it is a configured GCP provider with an
   * unknown delivery mode, which no server default covers up; otherwise a plan exactly when it is configured.
   */
  lemma PlanOutcomeExactly(p: Provider, prim: Primitives, ctx: ProviderContext)
    ensures p.PlanOf(prim, ctx).Err? <==> p.GcpProvider? && Configured(p, ctx.annotations) && UnknownDelivery(ctx.annotations)
    ensures p.PlanOf(prim, ctx).Ok? ==> (p.PlanOf(prim, ctx).value.Some? <==> Configured(p, ctx.annotations))
  {
    match p {
      case GcpProvider(cfg) =>
        AudienceKeys(Gcp);
        DeliveryExactly(cfg, ctx.annotations, cfg.delivery);
      case AwsProvider(cfg) =>
        NativeOrExactly(ctx.annotations, ProviderAws.K_ROLE_ARN, ProviderAws.NATIVE_ROLE_ARN, cfg.nativeAnnotations);
      case AzProvider(cfg) =>
        NativeOrExactly(ctx.annotations, ProviderAz.K_CLIENT_ID, ProviderAz.NATIVE_CLIENT_ID, cfg.nativeAnnotations);
        NativeOrExactly(ctx.annotations, ProviderAz.K_TENANT_ID, ProviderAz.NATIVE_TENANT_ID, cfg.nativeAnnotations);
    }
  }

  // ---- footprints ----

  lemma GcpKeysOwned(k: string)
    requires k in ProviderGcp.Keys()
    ensures KeyOwner(k) == Some(Gcp)
  {
    ProviderKeyOwner(Gcp, "-inject");
    ProviderKeyOwner(Gcp, "-audience");
    ProviderKeyOwner(Gcp, "-token-expiration");
    ProviderKeyOwner(Gcp, "-verify");
    ProviderKeyOwner(Gcp, "-verify-enforce");
    ProviderKeyOwner(Gcp, "-verify-image");
  }

  lemma AwsKeysOwned(k: string)
    requires k in ProviderAws.Keys()
    ensures KeyOwner(k) == Some(Aws)
  {
    ProviderKeyOwner(Aws, "-inject");
    ProviderKeyOwner(Aws, "-audience");
    ProviderKeyOwner(Aws, "-token-expiration");
    ProviderKeyOwner(Aws, "-verify");
    ProviderKeyOwner(Aws, "-verify-enforce");
    ProviderKeyOwner(Aws, "-verify-image");
  }

  lemma AzKeysOwned(k: string)
    requires k in ProviderAz.Keys()
    ensures KeyOwner(k) == Some(Az)
  {
    ProviderKeyOwner(Az, "-inject");
    ProviderKeyOwner(Az, "-audience");
    ProviderKeyOwner(Az, "-token-expiration");
    ProviderKeyOwner(Az, "-verify");
    ProviderKeyOwner(Az, "-verify-enforce");
    ProviderKeyOwner(Az, "-verify-image");
  }

  lemma KeysOwned(p: Provider)
    ensures forall k :: k in p.Keys() ==> KeyOwner(k) == Some(p.Id())
  {
    forall k | k in p.Keys()
      ensures KeyOwner(k) == Some(p.Id())
    {
      match p
      case GcpProvider(_) => GcpKeysOwned(k);
      case AwsProvider(_) => AwsKeysOwned(k);
      case AzProvider(_) => AzKeysOwned(k);
    }
  }

  /** The footprints of different providers are disjoint, and the marker key is in none. */
  lemma FootprintsDisjoint(p: Provider, q: Provider)
    ensures p.Id() != q.Id() ==> p.Keys() !! q.Keys()
    ensures K_INJECTED !in p.Keys()
  {
    MarkerKeyOwner();
    KeysOwned(p);
    KeysOwned(q);
  }

  // ---- non-interference ----

  lemma VerifiersReadOnlyKeys(
    ctx: ProviderContext, ctx': ProviderContext, id: ProviderId, image: string, check: string,
    env: seq<EnvVar>, mounts: seq<VolumeMount>)
    requires AgreeOn(ctx.annotations, ctx'.annotations, {VerifyKey(id), VerifyEnforceKey(id), VerifyImageKey(id)})
    ensures Verifiers(ctx, id, image, check, env, mounts) == Verifiers(ctx', id, image, check, env, mounts)
  {
    QueriesReadOnlyKeys(ctx.annotations, ctx'.annotations, {VerifyKey(id), VerifyEnforceKey(id), VerifyImageKey(id)});
  }

  lemma TokenReadsOnlyKey(ctx: ProviderContext, ctx': ProviderContext, id: ProviderId, audience: string)
    requires ctx' == ctx.(annotations := ctx'.annotations)
    requires AgreeOn(ctx.annotations, ctx'.annotations, {TokenExpirationKey(id)})
    ensures ProjectedToken(ctx, id, audience) == ProjectedToken(ctx', id, audience)
  {
    QueriesReadOnlyKeys(ctx.annotations, ctx'.annotations, {TokenExpirationKey(id)});
  }

  lemma AgreeOnFewer(a: AnnotationSet, b: AnnotationSet, keys: set<string>, fewer: set<string>)
    requires AgreeOn(a, b, keys) && fewer <= keys
    ensures AgreeOn(a, b, fewer)
  {
  }

  lemma GcpSettingsReadOnlyKeys(cfg: ProviderGcp.GcpConfig, a: AnnotationSet, b: AnnotationSet)
    requires AgreeOn(a, b, ProviderGcp.Keys())
    ensures ProviderGcp.Enabled(cfg, a) == ProviderGcp.Enabled(cfg, b)
    ensures ProviderGcp.Audience(cfg, a) == ProviderGcp.Audience(cfg, b)
    ensures ProviderGcp.ServiceAccount(cfg, a) == ProviderGcp.ServiceAccount(cfg, b)
    ensures ProviderGcp.DeliveryFor(cfg, a) == ProviderGcp.DeliveryFor(cfg, b)
  {
    QueriesReadOnlyKeys(a, b, ProviderGcp.Keys());
  }

  lemma GcpReadsOnlyKeys(cfg: ProviderGcp.GcpConfig, prim: Primitives, ctx: ProviderContext, ctx': ProviderContext)
    requires ctx' == ctx.(annotations := ctx'.annotations)
    requires AgreeOn(ctx.annotations, ctx'.annotations, ProviderGcp.Keys())
    ensures ProviderGcp.Enabled(cfg, ctx.annotations) == ProviderGcp.Enabled(cfg, ctx'.annotations)
    ensures ProviderGcp.PlanOf(cfg, prim, ctx) == ProviderGcp.PlanOf(cfg, prim, ctx')
  {
    var a, b, keys := ctx.annotations, ctx'.annotations, ProviderGcp.Keys();
    GcpSettingsReadOnlyKeys(cfg, a, b);
    AgreeOnFewer(a, b, keys, {VerifyKey(Gcp), VerifyEnforceKey(Gcp), VerifyImageKey(Gcp)});
    AgreeOnFewer(a, b, keys, {TokenExpirationKey(Gcp)});
    var token := ProviderGcp.Token(cfg, ctx);
    TokenReadsOnlyKey(ctx, ctx', Gcp, ProviderGcp.Audience(cfg, a));
    VerifiersReadOnlyKeys(
      ctx, ctx', Gcp, cfg.verifyImage, ProviderGcp.CHECK, ProviderGcp.CredsEnv(ctx), [token.Mount(), ProviderGcp.CredsMount(ctx)]);
  }

  lemma AwsReadsOnlyKeys(cfg: ProviderAws.AwsConfig, ctx: ProviderContext, ctx': ProviderContext)
    requires ctx' == ctx.(annotations := ctx'.annotations)
    requires AgreeOn(ctx.annotations, ctx'.annotations, ProviderAws.Keys())
    ensures ProviderAws.Enabled(cfg, ctx.annotations) == ProviderAws.Enabled(cfg, ctx'.annotations)
    ensures ProviderAws.PlanOf(cfg, ctx) == ProviderAws.PlanOf(cfg, ctx')
  {
    var a, b, keys := ctx.annotations, ctx'.annotations, ProviderAws.Keys();
    QueriesReadOnlyKeys(a, b, keys);
    AgreeOnFewer(a, b, keys, {VerifyKey(Aws), VerifyEnforceKey(Aws), VerifyImageKey(Aws)});
    AgreeOnFewer(a, b, keys, {TokenExpirationKey(Aws)});
    var arn := ProviderAws.RoleArn(cfg, a);
    var token := ProviderAws.Token(cfg, ctx);
    TokenReadsOnlyKey(ctx, ctx', Aws, ProviderAws.Audience(cfg, a));
    if arn.Some? {
      var env := ProviderAws.Env(arn.value, token.TokenFilePath(), a);
      VerifiersReadOnlyKeys(ctx, ctx', Aws, cfg.verifyImage, ProviderAws.CHECK, env, [token.Mount()]);
    }
  }

  lemma AzReadsOnlyKeys(cfg: ProviderAz.AzConfig, ctx: ProviderContext, ctx': ProviderContext)
    requires ctx' == ctx.(annotations := ctx'.annotations)
    requires AgreeOn(ctx.annotations, ctx'.annotations, ProviderAz.Keys())
    ensures ProviderAz.Enabled(cfg, ctx.annotations) == ProviderAz.Enabled(cfg, ctx'.annotations)
    ensures ProviderAz.PlanOf(cfg, ctx) == ProviderAz.PlanOf(cfg, ctx')
  {
    var a, b, keys := ctx.annotations, ctx'.annotations, ProviderAz.Keys();
    QueriesReadOnlyKeys(a, b, keys);
    AgreeOnFewer(a, b, keys, {VerifyKey(Az), VerifyEnforceKey(Az), VerifyImageKey(Az)});
    AgreeOnFewer(a, b, keys, {TokenExpirationKey(Az)});
    var client, tenant := ProviderAz.ClientId(cfg, a), ProviderAz.TenantId(cfg, a);
    var token := ProviderAz.Token(cfg, ctx);
    TokenReadsOnlyKey(ctx, ctx', Az, ProviderAz.Audience(cfg, a));
    if client.Some? && tenant.Some? {
      var env := ProviderAz.Env(client.value, tenant.value, token.TokenFilePath(), a);
      VerifiersReadOnlyKeys(ctx, ctx', Az, cfg.verifyImage, Shell.Render(ProviderAz.CHECK), env, [token.Mount()]);
    }
  }

  /** Annotations outside a provider's footprint, at any scope, change neither its decision nor its plan. */
  lemma NonInterference(p: Provider, prim: Primitives, ctx: ProviderContext, ctx': ProviderContext)
    requires ctx' == ctx.(annotations := ctx'.annotations)
    requires AgreeOn(ctx.annotations, ctx'.annotations, p.Keys())
    ensures p.Enabled(ctx.annotations) == p.Enabled(ctx'.annotations)
    ensures p.PlanOf(prim, ctx) == p.PlanOf(prim, ctx')
  {
    match p
    case GcpProvider(cfg) => GcpReadsOnlyKeys(cfg, prim, ctx, ctx');
    case AwsProvider(cfg) => AwsReadsOnlyKeys(cfg, ctx, ctx');
    case AzProvider(cfg) => AzReadsOnlyKeys(cfg, ctx, ctx');
  }

  // ---- planning ----

  /** Every enabled provider is asked in order; one that declines is skipped, one that fails ends the planning. */
  function PlanAll(providers: seq<Provider>, prim: Primitives, ctx: ProviderContext): Result<seq<ProviderPlan>> {
    if providers == [] then Ok([])
    else
      match PlanAll(providers[..|providers| - 1], prim, ctx)
      case Err(e) => Err(e)
      case Ok(earlier) => PlanNext(earlier, providers[|providers| - 1], prim, ctx)
  }

  /** What one provider adds to the plans of those before it. */
  function PlanNext(earlier: seq<ProviderPlan>, p: Provider, prim: Primitives, ctx: ProviderContext): Result<seq<ProviderPlan>> {
    if !p.Enabled(ctx.annotations) then Ok(earlier)
    else
      var planned :- p.PlanOf(prim, ctx);
      Ok(match planned case None => earlier case Some(plan) => earlier + [plan])
  }

  lemma PlanAllStep(init: seq<Provider>, p: Provider, prim: Primitives, ctx: ProviderContext)
    ensures PlanAll(init, prim, ctx).Err? ==> PlanAll(init + [p], prim, ctx) == PlanAll(init, prim, ctx)
    ensures PlanAll(init, prim, ctx).Ok? ==>
              PlanAll(init + [p], prim, ctx) == PlanNext(PlanAll(init, prim, ctx).value, p, prim, ctx)
  {
    assert (init + [p])[..|init|] == init;
  }

  lemma PlanNextAppend(a: seq<ProviderPlan>, b: seq<ProviderPlan>, p: Provider, prim: Primitives, ctx: ProviderContext)
    ensures PlanNext(b, p, prim, ctx).Err? ==> PlanNext(a + b, p, prim, ctx) == PlanNext(b, p, prim, ctx)
    ensures PlanNext(b, p, prim, ctx).Ok? ==> PlanNext(a + b, p, prim, ctx) == Ok(a + PlanNext(b, p, prim, ctx).value)
  {
    if p.Enabled(ctx.annotations) && p.PlanOf(prim, ctx).Ok? && p.PlanOf(prim, ctx).value.Some? {
      Associative(a, b, [p.PlanOf(prim, ctx).value.value]);
    }
  }

  /** The part of a plan list that belongs to one provider. */
  function Slice(plans: seq<ProviderPlan>, id: ProviderId): seq<ProviderPlan> {
    if plans == [] then []
    else Slice(plans[..|plans| - 1], id)
         + (if plans[|plans| - 1].provider == id then [plans[|plans| - 1]] else [])
  }

  lemma PlanCarriesId(p: Provider, prim: Primitives, ctx: ProviderContext)
    ensures var r := p.PlanOf(prim, ctx); r.Ok? && r.value.Some? ==> r.value.value.provider == p.Id()
  {
  }

  lemma SliceSnoc(plans: seq<ProviderPlan>, plan: ProviderPlan, id: ProviderId)
    ensures Slice(plans + [plan], id) == Slice(plans, id) + if plan.provider == id then [plan] else []
  {
    assert (plans + [plan])[..|plans|] == plans;
  }

  /** What one provider adds to the part of `id`. */
  function Contribution(p: Provider, prim: Primitives, ctx: ProviderContext, id: ProviderId): seq<ProviderPlan> {
    if p.Id() != id || !p.Enabled(ctx.annotations) then []
    else match p.PlanOf(prim, ctx)
      case Ok(Some(plan)) => [plan]
      case _ => []
  }

  lemma SliceOfStep(init: seq<Provider>, p: Provider, prim: Primitives, ctx: ProviderContext, id: ProviderId)
    requires PlanAll(init + [p], prim, ctx).Ok?
    ensures PlanAll(init, prim, ctx).Ok?
    ensures Slice(PlanAll(init + [p], prim, ctx).value, id) ==
            Slice(PlanAll(init, prim, ctx).value, id) + Contribution(p, prim, ctx, id)
  {
    assert (init + [p])[..|init|] == init;
    PlanCarriesId(p, prim, ctx);
    if p.Enabled(ctx.annotations) && p.PlanOf(prim, ctx).value.Some? {
      SliceSnoc(PlanAll(init, prim, ctx).value, p.PlanOf(prim, ctx).value.value, id);
    }
  }

  /** The two contexts differ only in annotations `q` may read. */
  ghost predicate DifferWithin(q: Provider, ctx: ProviderContext, ctx': ProviderContext) {
    && ctx' == ctx.(annotations := ctx'.annotations)
    && forall k, i :: 0 <= i < 4 && k !in q.Keys() ==>
         Lookup(ctx.annotations.Ordered()[i], k) == Lookup(ctx'.annotations.Ordered()[i], k)
  }

  lemma ContributionUnchanged(
    p: Provider, prim: Primitives, ctx: ProviderContext, ctx': ProviderContext, q: Provider, other: ProviderId)
    requires DifferWithin(q, ctx, ctx') && other != q.Id()
    ensures Contribution(p, prim, ctx, other) == Contribution(p, prim, ctx', other)
  {
    if p.Id() == other {
      FootprintsDisjoint(p, q);
      NonInterference(p, prim, ctx, ctx');
    }
  }

  /**
   * Two requests that differ only in annotations `q` may read: when neither fails, every other provider's
   * part of the plan is the same.
   */
  lemma {:induction false} OtherSlicesUnchanged(
    providers: seq<Provider>, prim: Primitives, ctx: ProviderContext, ctx': ProviderContext, q: Provider, other: ProviderId)
    requires DifferWithin(q, ctx, ctx') && other != q.Id()
    requires PlanAll(providers, prim, ctx).Ok? && PlanAll(providers, prim, ctx').Ok?
    ensures Slice(PlanAll(providers, prim, ctx).value, other) == Slice(PlanAll(providers, prim, ctx').value, other)
  {
    if providers != [] {
      var init, p := providers[..|providers| - 1], providers[|providers| - 1];
      assert providers == init + [p];
      SliceOfStep(init, p, prim, ctx, other);
      SliceOfStep(init, p, prim, ctx', other);
      ContributionUnchanged(p, prim, ctx, ctx', q, other);
      OtherSlicesUnchanged(init, prim, ctx, ctx', q, other);
    }
  }
}
